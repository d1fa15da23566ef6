/** The script stage and the script review gate
    (orchestration/nodes/script_nodes.py). */
module ScriptNodes {
  import opened Results
  import opened Text
  import opened Schema
  import ScriptService

  const ScriptsGenerated := "Script and image prompts generated successfully"
  const ScriptReview := "review_script"
  const ScriptNotice := "Paused for script review. Click Continue when ready."
  const NarratorPrefix := "Narrator: \""
  /** `str(e)` of the ValueError raised by unpacking a longer tuple into two
      names. */
  const UnpackError := "too many values to unpack (expected 2)"

  /** What the generator call returns: a tuple whose first two values are the
      script and the prompts, followed by `rest`. */
  datatype GeneratorReturn = GeneratorReturn(script: string, imagePrompts: seq<string>, rest: seq<string>)

  /** The five-value tuple of the script service, as the node receives it. */
  function FromGenerator(o: ScriptService.ScriptOutput): (g: GeneratorReturn)
    ensures g.script == o.script && g.imagePrompts == o.imagePrompts
    ensures g.rest == [o.emotion, o.title, o.description]
  {
    GeneratorReturn(o.script, o.imagePrompts, [o.emotion, o.title, o.description])
  }

  /** `line.split('Narrator: "', 1)[1].rsplit('"', 1)[0]` on a line that
      starts with the prefix, whose first occurrence is therefore at 0. */
  function NarrationPiece(line: string): (r: string)
    requires StartsWith(line, NarratorPrefix)
    ensures var rest := line[|NarratorPrefix|..];
      && ('"' in rest ==> |r| < |rest| && r + ['"'] == rest[..|r| + 1] && '"' !in rest[|r| + 1..])
      && ('"' !in rest ==> r == rest)
  {
    var rest := line[|NarratorPrefix|..];
    var r := BeforeLast(rest, '"');
    assert '"' in rest ==> rest[..|r| + 1] == r + ['"'];
    r
  }

  /** The pieces of the narrator lines, in order. */
  function NarratorPieces(lines: seq<string>): seq<string>
    decreases |lines|
  {
    if lines == [] then []
    else
      var init := NarratorPieces(lines[..|lines| - 1]);
      var line := lines[|lines| - 1];
      if StartsWith(line, NarratorPrefix) then init + [NarrationPiece(line)] else init
  }

  /** `narration_text` after the loop over the lines: every piece followed
      by one space. */
  function NarrationText(lines: seq<string>): string
    decreases |lines|
  {
    if lines == [] then ""
    else
      var init := NarrationText(lines[..|lines| - 1]);
      var line := lines[|lines| - 1];
      if StartsWith(line, NarratorPrefix) then init + NarrationPiece(line) + " " else init
  }

  /** The narration of a script: its narrator pieces, trimmed as a whole. */
  function Narration(script: string): string {
    Strip(NarrationText(Split(script, "\n")))
  }

  /** The accumulated text is the pieces joined by single spaces, with one
      trailing space, or nothing when there is no narrator line. */
  lemma {:induction false} NarrationTextIsJoin(lines: seq<string>)
    ensures NarratorPieces(lines) == [] ==> NarrationText(lines) == ""
    ensures NarratorPieces(lines) != [] ==> NarrationText(lines) == Join(NarratorPieces(lines), " ") + " "
    decreases |lines|
  {
    if lines != [] {
      var init := lines[..|lines| - 1];
      NarrationTextIsJoin(init);
      var line := lines[|lines| - 1];
      if StartsWith(line, NarratorPrefix) && NarratorPieces(init) != [] {
        JoinSnoc(NarratorPieces(init), NarrationPiece(line), " ");
      }
    }
  }

  /** A script with no narrator line has an empty narration. */
  lemma NarrationWithoutNarrator(script: string)
    requires forall line :: line in Split(script, "\n") ==> !StartsWith(line, NarratorPrefix)
    ensures Narration(script) == ""
  {
    NoPieces(Split(script, "\n"));
    NarrationTextIsJoin(Split(script, "\n"));
  }

  lemma {:induction false} NoPieces(lines: seq<string>)
    requires forall line :: line in lines ==> !StartsWith(line, NarratorPrefix)
    ensures NarratorPieces(lines) == []
    decreases |lines|
  {
    if lines != [] {
      assert lines[|lines| - 1] in lines;
      NoPieces(lines[..|lines| - 1]);
    }
  }

  /** The node's loop over the script's lines. */
  method ExtractNarration(script: string) returns (narration: string)
    ensures narration == Narration(script)
  {
    var lines := Split(script, "\n");
    var text := "";
    var i := 0;
    while i < |lines|
      invariant 0 <= i <= |lines|
      invariant text == NarrationText(lines[..i])
    {
      var line := lines[i];
      assert lines[..i + 1][..i] == lines[..i];
      if StartsWith(line, NarratorPrefix) {
        text := text + NarrationPiece(line) + " ";
      }
      i := i + 1;
    }
    assert lines[..|lines|] == lines;
    narration := Strip(text);
  }

  /** `generate_script_and_prompts(state)`; `generate` is the script
      service on the consolidated news. */
  function GenerateScriptAndPrompts(s: WorkflowState, generate: string -> GeneratorReturn): (r: WorkflowState)
    ensures KeepsFlags(s, r)
    ensures var g := generate(s.consolidatedNews);
      g.rest == [] ==>
        && r.script == g.script && r.imagePrompts == g.imagePrompts
        && r.narration == Some(Narration(g.script))
        && r.statusMessage == ScriptsGenerated
        && r.(script := s.script, imagePrompts := s.imagePrompts, narration := None, statusMessage := s.statusMessage) == Validate(s)
    ensures var g := generate(s.consolidatedNews);
      g.rest != [] ==>
        && r.error == "Failed to generate script: " + UnpackError
        && r.hasError && r.statusMessage == "Error generating script"
        && r.(error := s.error, hasError := s.hasError, statusMessage := s.statusMessage) == Validate(s)
  {
    var g := generate(s.consolidatedNews);
    if g.rest == [] then
      Validate(s).(script := g.script, imagePrompts := g.imagePrompts, narration := Some(Narration(g.script)),
                   statusMessage := ScriptsGenerated)
    else
      RecordError(Validate(s), "Failed to generate script: " + UnpackError, "Error generating script")
  }

  /** With the script service of this repository, which returns five
      values, the stage always fails and leaves script and prompts alone. */
  lemma GenerateWithScriptServiceFails(s: WorkflowState, reply: string -> Result<string>)
    ensures var r := GenerateScriptAndPrompts(s, c => FromGenerator(ScriptService.GenerateScript(reply(c))));
      && r.hasError && r.error == "Failed to generate script: " + UnpackError
      && r.script == s.script && r.imagePrompts == s.imagePrompts && r.narration.None?
  {
    var g := FromGenerator(ScriptService.GenerateScript(reply(s.consolidatedNews)));
    assert (c => FromGenerator(ScriptService.GenerateScript(reply(c))))(s.consolidatedNews) == g;
    assert g.rest != [];
  }

  /** `check_pause_script(state)` */
  function CheckPauseScript(s: WorkflowState): (r: WorkflowState)
    ensures KeepsFlags(s, r)
    ensures r.(statusMessage := s.statusMessage) == Validate(s)
    ensures s.isPaused && s.pauseReason == ScriptReview ==> r.statusMessage == ScriptNotice
    ensures !(s.isPaused && s.pauseReason == ScriptReview) ==> r == Validate(s)
  {
    var d := Validate(s);
    if s.isPaused && s.pauseReason == ScriptReview then d.(statusMessage := ScriptNotice) else d
  }

  lemma CheckPauseScriptIdempotent(s: WorkflowState)
    ensures CheckPauseScript(CheckPauseScript(s)) == CheckPauseScript(s)
  {
  }
}
