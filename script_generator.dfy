/** The parsing half of `ScriptGenerator.generate_script_and_prompts`
    (services/script_generator.py:99-251): a layered fallback parser from the
    language model's reply text to the five values the video needs. */
module ScriptService {
  import opened Results
  import opened Text

  /** The returned 5-tuple, in its order. */
  datatype ScriptOutput = ScriptOutput(
    script: string, imagePrompts: seq<string>, emotion: string, title: string, description: string)

  /** The tuple returned after any exception. */
  const ErrorOutput := ScriptOutput("Error generating script.", ["Generic news image"], "neutral",
                                    "Error generating title", "Error generating description")

  const DefaultEmotion := "neutral"
  const Tones := ["happy", "sad", "excited", "calm", "angry", "whisper", "nervous"]
  const EmotionPrefixes := ["Emotion:", "EMOTION:", "Emotional tone:", "Tone:"]
  const TitlePrefixes := ["Title:", "VIDEO TITLE:", "YouTube Title:"]
  const DescriptionPrefixes := ["Description:", "VIDEO DESCRIPTION:", "YouTube Description:"]
  /** The characters of `strip('"\'')`. */
  const Quotes := {'"', '\''}
  /** The characters of `'()[]{}'`. */
  const Brackets := {'(', ')', '[', ']', '{', '}'}

  const EmotionStart := "<<EMOTION_START>>"
  const EmotionEnd := "<<EMOTION_END>>"
  const ScriptStart := "<<VIDEO_SCRIPT_START>>"
  const ScriptEnd := "<<VIDEO_SCRIPT_END>>"
  const PromptsStart := "<<IMAGE_PROMPTS_START>>"
  const PromptsEnd := "<<IMAGE_PROMPTS_END>>"
  const TitleStart := "<<TITLE_START>>"
  const TitleEnd := "<<TITLE_END>>"
  const DescriptionStart := "<<DESCRIPTION_START>>"
  const DescriptionEnd := "<<DESCRIPTION_END>>"
  /** The labels of the older, marker-free reply format. */
  const ScriptLabel := "VIDEO SCRIPT:"
  const PromptsLabel := "IMAGE PROMPTS:"
  const NarratorLabel := "Narrator:"

  /** `start in content and end in content` */
  predicate HasMarkers(content: string, start: string, end: string) {
    Contains(content, start) && Contains(content, end)
  }

  /** `content.split(start)[1].split(end)[0]` */
  function Between(content: string, start: string, end: string): string
    requires start != [] && end != [] && Contains(content, start)
  {
    Split(Split(content, start)[1], end)[0]
  }

  /** The marked text is the start of what follows the first start marker,
      up to (and without) the next start or end marker, or to the end. */
  lemma BetweenShape(content: string, start: string, end: string)
    requires start != [] && end != [] && Contains(content, start)
    ensures StartsWith(After(content, start), Between(content, start, end))
    ensures !Contains(Between(content, start, end), start)
    ensures !Contains(Between(content, start, end), end)
    ensures var r := Between(content, start, end); var rest := After(content, start);
      |r| == |rest| || OccursAt(rest, start, |r|) || OccursAt(rest, end, |r|)
  {
    var rest := After(content, start);
    assert Between(content, start, end) == Before(Before(rest, start), end);
    BeforeBeforeShape(rest, start, end);
  }

  /** `rest` cut at the first `start`, then at the first `end`. */
  lemma BeforeBeforeShape(rest: string, start: string, end: string)
    requires start != [] && end != []
    ensures var r := Before(Before(rest, start), end);
      && StartsWith(rest, r) && !Contains(r, start) && !Contains(r, end)
      && (|r| == |rest| || OccursAt(rest, start, |r|) || OccursAt(rest, end, |r|))
  {
    var upToStart := Before(rest, start);
    BeforeShape(rest, start);
    BeforeShape(upToStart, end);
    BeforeEnds(rest, start);
    BeforeEnds(upToStart, end);
    var r := Before(upToStart, end);
    StartsWithTrans(rest, upToStart, r);
    assert r == upToStart[..|r|];
    assert upToStart == rest[..|upToStart|];
    if |r| < |upToStart| {
      assert upToStart[|r|..|r| + |end|] == rest[|r|..|r| + |end|];
    }
    forall j: nat ensures !OccursAt(r, start, j) {
      if j + |start| <= |r| {
        var inR, inUpToStart := r[j..j + |start|], upToStart[j..j + |start|];
        forall k | 0 <= k < |start| ensures inR[k] == inUpToStart[k] {
        }
        assert inR == inUpToStart;
        assert !OccursAt(upToStart, start, j);
      }
    }
  }

  // ----- emotion (lines 101, 105-119)

  /** `line.split(prefix, 1)[1].strip().lower()` with quotes then stripped. */
  function ToneAfter(line: string, prefix: string): string
    requires Contains(line, prefix)
  {
    StripChars(Lower(Strip(After(line, prefix))), Quotes)
  }

  /** The inner prefix loop: the first prefix found in the line whose value is
      one of the tones; a prefix whose value is not a tone does not stop it. */
  function FirstTone(line: string, prefixes: seq<string>): (r: Option<string>)
    ensures r.Some? ==> r.value in Tones
  {
    if prefixes == [] then None
    else if Contains(line, prefixes[0]) && ToneAfter(line, prefixes[0]) in Tones then Some(ToneAfter(line, prefixes[0]))
    else FirstTone(line, prefixes[1..])
  }

  /** The outer line loop: its `break` leaves only the prefix loop, so the
      last line that yields a tone decides. */
  function LastTone(lines: seq<string>): (r: string)
    ensures r == DefaultEmotion || r in Tones
    decreases |lines|
  {
    if lines == [] then DefaultEmotion
    else match FirstTone(lines[|lines| - 1], EmotionPrefixes)
      case Some(t) => t
      case None => LastTone(lines[..|lines| - 1])
  }

  function Emotion(content: string): string {
    if HasMarkers(content, EmotionStart, EmotionEnd) then Lower(Strip(Between(content, EmotionStart, EmotionEnd)))
    else LastTone(Split(content, "\n"))
  }

  /** With both markers, the emotion is the marked text, trimmed and lowered;
      without them it is "neutral" or one of the seven tones. */
  lemma EmotionCases(content: string)
    ensures HasMarkers(content, EmotionStart, EmotionEnd) ==>
      Emotion(content) == Lower(Strip(Between(content, EmotionStart, EmotionEnd)))
    ensures !HasMarkers(content, EmotionStart, EmotionEnd) ==>
      Emotion(content) == DefaultEmotion || Emotion(content) in Tones
  {
  }

  // ----- script section (lines 121-129)

  function ScriptSection(content: string): string {
    if HasMarkers(content, ScriptStart, ScriptEnd) then Strip(Between(content, ScriptStart, ScriptEnd))
    else if Contains(content, ScriptLabel) && Contains(content, PromptsLabel) then
      Strip(Replace(Split(content, PromptsLabel)[0], ScriptLabel, ""))
    else ""
  }

  // ----- image prompts (lines 131-149)

  /** A prompt line of the older format, its "N. " numbering removed. */
  function LegacyPrompt(line: string): string {
    if Contains(line, ". ") then Strip(After(line, ". ")) else Strip(line)
  }

  function LegacyPrompts(lines: seq<string>): (r: seq<string>)
    ensures forall k :: 0 <= k < |r| ==> r[k] != ""
    decreases |lines|
  {
    if lines == [] then []
    else
      var init := LegacyPrompts(lines[..|lines| - 1]);
      var line := lines[|lines| - 1];
      if Strip(line) != "" && LegacyPrompt(line) != "" then init + [LegacyPrompt(line)] else init
  }

  function MarkedPrompts(content: string): seq<string>
    requires Contains(content, PromptsStart)
  {
    NonBlankStripped(Split(Strip(Between(content, PromptsStart, PromptsEnd)), "\n"))
  }

  function ImagePrompts(content: string): seq<string> {
    if HasMarkers(content, PromptsStart, PromptsEnd) then MarkedPrompts(content)
    else if Contains(content, PromptsLabel) then LegacyPrompts(Split(Strip(Split(content, PromptsLabel)[1]), "\n"))
    else []
  }

  // ----- title and description (lines 151-177)

  function LabelAfter(line: string, prefix: string): string
    requires Contains(line, prefix)
  {
    StripChars(Strip(After(line, prefix)), Quotes)
  }

  /** The inner prefix loop: the first prefix found in the line decides,
      whatever its value. */
  function FirstLabel(line: string, prefixes: seq<string>): Option<string> {
    if prefixes == [] then None
    else if Contains(line, prefixes[0]) then Some(LabelAfter(line, prefixes[0]))
    else FirstLabel(line, prefixes[1..])
  }

  /** The outer line loop: the last line holding any prefix decides. */
  function LastLabel(lines: seq<string>, prefixes: seq<string>): string
    decreases |lines|
  {
    if lines == [] then ""
    else match FirstLabel(lines[|lines| - 1], prefixes)
      case Some(t) => t
      case None => LastLabel(lines[..|lines| - 1], prefixes)
  }

  /** A field taken from between its markers, or else from the last line
      holding one of its prefixes. */
  function MarkedOrLabeled(content: string, start: string, end: string, prefixes: seq<string>): string
    requires start != [] && end != []
  {
    if HasMarkers(content, start, end) then Strip(Between(content, start, end))
    else LastLabel(Split(content, "\n"), prefixes)
  }

  function Title(content: string): string {
    MarkedOrLabeled(content, TitleStart, TitleEnd, TitlePrefixes)
  }

  function Description(content: string): string {
    MarkedOrLabeled(content, DescriptionStart, DescriptionEnd, DescriptionPrefixes)
  }

  // ----- narrator standardisation (lines 179-212)

  predicate IsNarratorLine(line: string) {
    Contains(line, NarratorLabel) && '"' in line
  }

  predicate HasNarratorFormat(script: string) {
    exists line :: line in Split(script, "\n") && IsNarratorLine(line)
  }

  /** `f'Narrator: "{text}"'` */
  function Quoted(text: string): string {
    "Narrator: \"" + text + "\""
  }

  predicate IsKeptLine(line: string) {
    (StartsWith(line, "[") && EndsWith(line, "]")) || StartsWith(line, "(") || Strip(line) == ""
  }

  predicate AllBrackets(s: string) {
    forall i :: 0 <= i < |s| ==> s[i] in Brackets
  }

  /** One line of the standardising loop. */
  function FixLine(line: string): string {
    if IsKeptLine(line) then line
    else if !StartsWith(line, NarratorLabel) && Strip(line) != "" && !AllBrackets(Strip(line)) then
      if '"' in line then
        var parts := Split(line, "\"");
        if |parts| >= 3 then Quoted(parts[1]) else Quoted(Strip(line))
      else Quoted(Strip(line))
    else line
  }

  function FixedLines(lines: seq<string>): (r: seq<string>)
    ensures |r| == |lines|
    ensures forall i :: 0 <= i < |lines| ==> r[i] == FixLine(lines[i])
  {
    seq(|lines|, i requires 0 <= i < |lines| => FixLine(lines[i]))
  }

  function Standardized(script: string): string {
    if HasNarratorFormat(script) then script else Join(FixedLines(Split(script, "\n")), "\n")
  }

  /** Headers, direction notes and blank lines are kept verbatim; any other
      line is kept or becomes one quoted narrator line. */
  lemma FixLineCases(line: string)
    ensures IsKeptLine(line) ==> FixLine(line) == line
    ensures FixLine(line) == line || (StartsWith(FixLine(line), "Narrator: \"") && EndsWith(FixLine(line), "\""))
  {
    if !IsKeptLine(line) && !StartsWith(line, NarratorLabel) && Strip(line) != "" && !AllBrackets(Strip(line)) {
      if '"' in line && |Split(line, "\"")| >= 3 {
        QuotedShape(Split(line, "\"")[1]);
      } else {
        QuotedShape(Strip(line));
      }
    }
  }

  lemma QuotedShape(text: string)
    ensures StartsWith(Quoted(text), "Narrator: \"") && EndsWith(Quoted(text), "\"")
  {
    var q := Quoted(text);
    assert q[..11] == "Narrator: \"";
    assert q[|q| - 1..] == "\"";
  }

  /** A script that already has a narrator line is left as it is. */
  lemma StandardizedKeepsFormatted(script: string)
    requires HasNarratorFormat(script)
    ensures Standardized(script) == script
  {
  }

  // ----- basic extraction (lines 214-226)

  /** `line.startswith(('1.', '2.', '3.', '4.', '5.', '6.'))` */
  predicate IsNumbered(line: string) {
    |line| >= 2 && '1' <= line[0] <= '6' && line[1] == '.'
  }

  /** A numbered line without ". ": `line.split('. ', 1)[1]` raises IndexError. */
  predicate IsBadNumbered(line: string) {
    IsNumbered(line) && !Contains(line, ". ")
  }

  datatype Extraction = Extraction(prompts: seq<string>, scriptLines: seq<string>)

  /** The numbered lines' texts and the other lines, or None for the
      IndexError. */
  function BasicExtraction(lines: seq<string>): Option<Extraction>
    decreases |lines|
  {
    if lines == [] then Some(Extraction([], []))
    else
      var line := lines[|lines| - 1];
      match BasicExtraction(lines[..|lines| - 1])
      case None => None
      case Some(e) =>
        if !IsNumbered(line) then Some(e.(scriptLines := e.scriptLines + [line]))
        else if Contains(line, ". ") then Some(e.(prompts := e.prompts + [Strip(After(line, ". "))]))
        else None
  }

  /** The extraction raises exactly when some line is numbered without ". ". */
  lemma {:induction false} BasicExtractionFails(lines: seq<string>)
    ensures BasicExtraction(lines).None? <==> exists i :: 0 <= i < |lines| && IsBadNumbered(lines[i])
    decreases |lines|
  {
    if lines != [] {
      var init := lines[..|lines| - 1];
      BasicExtractionFails(init);
      if exists i :: 0 <= i < |init| && IsBadNumbered(init[i]) {
        var i :| 0 <= i < |init| && IsBadNumbered(init[i]);
        assert lines[i] == init[i];
      }
      if exists i :: 0 <= i < |lines| && IsBadNumbered(lines[i]) {
        var i :| 0 <= i < |lines| && IsBadNumbered(lines[i]);
        if i < |init| {
          assert init[i] == lines[i];
        }
      }
    }
  }

  // ----- the whole parse

  /** The parse of `content`, None where it raises. */
  function ParseOutcome(content: string): Option<ScriptOutput> {
    var emotion := Emotion(content);
    var section := Standardized(ScriptSection(content));
    var prompts := ImagePrompts(content);
    var title := Title(content);
    var description := Description(content);
    if section == "" || prompts == [] then
      match BasicExtraction(Split(content, "\n"))
      case None => None
      case Some(e) =>
        Some(ScriptOutput(if section == "" then Join(e.scriptLines, "\n") else section,
                          prompts + e.prompts, emotion, title, description))
    else Some(ScriptOutput(section, prompts, emotion, title, description))
  }

  /** The tuple returned for the reply text `content`. */
  function Parsed(content: string): ScriptOutput {
    ParseOutcome(content).GetOr(ErrorOutput)
  }

  /** `generate_script_and_prompts`: a failed call into the model, or a reply
      without text, gives the error tuple. */
  function GenerateScript(reply: Result<string>): (r: ScriptOutput)
    ensures reply.Err? ==> r == ErrorOutput
    ensures reply.Ok? ==> r == Parsed(reply.value)
  {
    match reply
    case Ok(content) => Parsed(content)
    case Err(_) => ErrorOutput
  }

  /** Emotion, title and description never depend on the script and prompt
      fallbacks, unless the parse raises. */
  lemma ParsedFields(content: string)
    ensures ParseOutcome(content).None? ==> Parsed(content) == ErrorOutput
    ensures ParseOutcome(content).Some? ==>
      && Parsed(content).emotion == Emotion(content)
      && Parsed(content).title == Title(content)
      && Parsed(content).description == Description(content)
    ensures ParseOutcome(content).Some? && HasMarkers(content, TitleStart, TitleEnd) ==>
      Parsed(content).title == Strip(Between(content, TitleStart, TitleEnd))
    ensures ParseOutcome(content).Some? && HasMarkers(content, DescriptionStart, DescriptionEnd) ==>
      Parsed(content).description == Strip(Between(content, DescriptionStart, DescriptionEnd))
  {
  }

  /** Without emotion markers the returned emotion is "neutral" or a tone,
      also on the error path. */
  lemma ParsedEmotion(content: string)
    requires !HasMarkers(content, EmotionStart, EmotionEnd)
    ensures Parsed(content).emotion == DefaultEmotion || Parsed(content).emotion in Tones
  {
    EmotionCases(content);
  }

  /** With both script markers and a narrator-formatted, non-empty section,
      and prompts found, the script is the stripped text between the markers. */
  lemma ParsedScriptFromMarkers(content: string)
    requires HasMarkers(content, ScriptStart, ScriptEnd)
    requires HasNarratorFormat(ScriptSection(content)) && ScriptSection(content) != ""
    requires ImagePrompts(content) != []
    ensures Parsed(content).script == Strip(Between(content, ScriptStart, ScriptEnd))
  {
  }

  /** With both prompt markers, and a non-empty standardised script, the
      prompts are the non-blank lines between the markers, trimmed, in
      order. */
  lemma ParsedPromptsFromMarkers(content: string)
    requires HasMarkers(content, PromptsStart, PromptsEnd)
    requires Standardized(ScriptSection(content)) != "" && MarkedPrompts(content) != []
    ensures Parsed(content).imagePrompts == MarkedPrompts(content)
    ensures forall k :: 0 <= k < |Parsed(content).imagePrompts| ==>
      var p := Parsed(content).imagePrompts[k]; p != "" && !IsSpace(p[0]) && !IsSpace(p[|p| - 1])
  {
  }

  /** When a fallback is needed and some line is numbered without ". " (such
      as "1.5"), the whole parse gives the error tuple. */
  lemma ParsedRaisesOnBadNumbering(content: string, i: nat)
    requires Standardized(ScriptSection(content)) == "" || ImagePrompts(content) == []
    requires i < |Split(content, "\n")| && IsBadNumbered(Split(content, "\n")[i])
    ensures Parsed(content) == ErrorOutput
  {
    BasicExtractionFails(Split(content, "\n"));
  }

  /** A sub-string longer than the text does not occur in it. */
  lemma LongerNotContained(s: string, sub: string)
    requires |s| < |sub|
    ensures !Contains(s, sub)
  {
  }

  /** A sub-string with a character the text lacks does not occur in it. */
  lemma MissingCharNotContained(s: string, sub: string, k: nat)
    requires k < |sub| && sub[k] !in s
    ensures !Contains(s, sub)
  {
    forall j: nat ensures !OccursAt(s, sub, j) {
      if j + |sub| <= |s| {
        assert s[j..j + |sub|][k] == s[j + k];
      }
    }
  }

  /** The reply "1.5" gives the error tuple. */
  lemma ParsedOnePointFive()
    ensures Parsed("1.5") == ErrorOutput
  {
    var c := "1.5";
    LongerNotContained(c, ScriptStart);
    LongerNotContained(c, ScriptLabel);
    LongerNotContained(c, PromptsStart);
    LongerNotContained(c, PromptsLabel);
    assert ScriptSection(c) == "";
    assert ImagePrompts(c) == [];
    MissingCharNotContained(c, "\n", 0);
    assert Split(c, "\n") == [c];
    MissingCharNotContained(c, ". ", 1);
    ParsedRaisesOnBadNumbering(c, 0);
  }

  // ----- the loops of the source, proved against the functions above

  /** The prefix loop of the emotion scan (lines 111-119) on one line: the
      value after the first prefix whose value is a tone, or none. */
  method ScanTonePrefixes(line: string, prefixes: seq<string>) returns (tone: Option<string>)
    ensures tone == FirstTone(line, prefixes)
  {
    tone := None;
    var j := 0;
    while j < |prefixes| && tone.None?
      invariant 0 <= j <= |prefixes|
      invariant tone.None? ==> FirstTone(line, prefixes) == FirstTone(line, prefixes[j..])
      invariant tone.Some? ==> FirstTone(line, prefixes) == tone
    {
      var prefix := prefixes[j];
      assert prefixes[j..][1..] == prefixes[j + 1..];
      if Contains(line, prefix) {
        var potential := StripChars(Lower(Strip(After(line, prefix))), Quotes);
        if potential in Tones {
          tone := Some(potential);
        }
      }
      j := j + 1;
    }
  }

  /** The fallback emotion scan (lines 110-119). */
  method ScanEmotion(lines: seq<string>) returns (emotion: string)
    ensures emotion == LastTone(lines)
  {
    emotion := DefaultEmotion;
    var i := 0;
    while i < |lines|
      invariant 0 <= i <= |lines|
      invariant emotion == LastTone(lines[..i])
    {
      assert lines[..i + 1][..i] == lines[..i];
      var tone := ScanTonePrefixes(lines[i], EmotionPrefixes);
      if tone.Some? {
        emotion := tone.value;
      }
      i := i + 1;
    }
    assert lines[..i] == lines;
  }

  /** The prefix loop of the title and description scans (lines 157-163 and
      171-177) on one line: the text after the first prefix it holds. */
  method ScanLabelPrefixes(line: string, prefixes: seq<string>) returns (found: Option<string>)
    ensures found == FirstLabel(line, prefixes)
  {
    found := None;
    var j := 0;
    while j < |prefixes| && found.None?
      invariant 0 <= j <= |prefixes|
      invariant found.None? ==> FirstLabel(line, prefixes) == FirstLabel(line, prefixes[j..])
      invariant found.Some? ==> FirstLabel(line, prefixes) == found
    {
      var prefix := prefixes[j];
      assert prefixes[j..][1..] == prefixes[j + 1..];
      if Contains(line, prefix) {
        found := Some(StripChars(Strip(After(line, prefix)), Quotes));
      }
      j := j + 1;
    }
  }

  /** The title and description scans (lines 156-177). */
  method ScanLabel(lines: seq<string>, prefixes: seq<string>) returns (text: string)
    ensures text == LastLabel(lines, prefixes)
  {
    text := "";
    var i := 0;
    while i < |lines|
      invariant 0 <= i <= |lines|
      invariant text == LastLabel(lines[..i], prefixes)
    {
      assert lines[..i + 1][..i] == lines[..i];
      var found := ScanLabelPrefixes(lines[i], prefixes);
      if found.Some? {
        text := found.value;
      }
      i := i + 1;
    }
    assert lines[..i] == lines;
  }

  /** The older-format prompt loop (lines 140-149). */
  method CollectLegacyPrompts(lines: seq<string>) returns (prompts: seq<string>)
    ensures prompts == LegacyPrompts(lines)
  {
    prompts := [];
    var i := 0;
    while i < |lines|
      invariant 0 <= i <= |lines|
      invariant prompts == LegacyPrompts(lines[..i])
    {
      var line := lines[i];
      ghost var next := LegacyPrompts(lines[..i + 1]);
      LegacyPromptsStep(lines, i);
      if Strip(line) != "" {
        var prompt;
        if Contains(line, ". ") {
          prompt := Strip(After(line, ". "));
        } else {
          prompt := Strip(line);
        }
        assert prompt == LegacyPrompt(line);
        if prompt != "" {
          prompts := prompts + [prompt];
        }
        assert prompts == next;
      } else {
        assert prompts == next;
      }
      i := i + 1;
    }
    assert lines[..i] == lines;
  }

  lemma LegacyPromptsStep(lines: seq<string>, i: nat)
    requires i < |lines|
    ensures LegacyPrompts(lines[..i + 1]) ==
      if Strip(lines[i]) != "" && LegacyPrompt(lines[i]) != "" then LegacyPrompts(lines[..i]) + [LegacyPrompt(lines[i])]
      else LegacyPrompts(lines[..i])
  {
    assert lines[..i + 1][..i] == lines[..i];
  }

  /** The narrator-format check with its `break` (lines 181-185). */
  method FindNarratorFormat(lines: seq<string>) returns (found: bool)
    ensures found <==> exists line :: line in lines && IsNarratorLine(line)
  {
    found := false;
    var i := 0;
    while i < |lines| && !found
      invariant 0 <= i <= |lines|
      invariant found ==> exists line :: line in lines && IsNarratorLine(line)
      invariant !found ==> forall k :: 0 <= k < i ==> !IsNarratorLine(lines[k])
    {
      if Contains(lines[i], NarratorLabel) && '"' in lines[i] {
        assert lines[i] in lines && IsNarratorLine(lines[i]);
        found := true;
      }
      i := i + 1;
    }
  }

  /** One pass of the standardising loop's body (lines 193-210). */
  method FixOneLine(line: string) returns (fixedLine: string)
    ensures fixedLine == FixLine(line)
  {
    fixedLine := line;
    if (StartsWith(line, "[") && EndsWith(line, "]")) || StartsWith(line, "(") || Strip(line) == "" {
      fixedLine := line;
    } else if !StartsWith(line, NarratorLabel) && Strip(line) != "" && !AllBrackets(Strip(line)) {
      if '"' in line {
        var quoteParts := Split(line, "\"");
        if |quoteParts| >= 3 {
          fixedLine := "Narrator: \"" + quoteParts[1] + "\"";
        } else {
          fixedLine := "Narrator: \"" + Strip(line) + "\"";
        }
      } else {
        fixedLine := "Narrator: \"" + Strip(line) + "\"";
      }
    }
  }

  /** The standardising loop (lines 190-210). */
  method FixScriptLines(lines: seq<string>) returns (fixed: seq<string>)
    ensures fixed == FixedLines(lines)
  {
    fixed := [];
    var i := 0;
    while i < |lines|
      invariant 0 <= i <= |lines|
      invariant |fixed| == i
      invariant forall k :: 0 <= k < i ==> fixed[k] == FixLine(lines[k])
    {
      var fixedLine := FixOneLine(lines[i]);
      fixed := fixed + [fixedLine];
      i := i + 1;
    }
  }

  /** The basic extraction loop (lines 217-223), appending to the prompts
      found so far; `ok` is false where it raises. */
  method ExtractBasic(lines: seq<string>, prompts: seq<string>)
    returns (ok: bool, allPrompts: seq<string>, scriptLines: seq<string>)
    ensures ok <==> BasicExtraction(lines).Some?
    ensures ok ==> allPrompts == prompts + BasicExtraction(lines).value.prompts
    ensures ok ==> scriptLines == BasicExtraction(lines).value.scriptLines
  {
    allPrompts := prompts;
    scriptLines := [];
    var i := 0;
    while i < |lines|
      invariant 0 <= i <= |lines|
      invariant BasicExtraction(lines[..i]).Some?
      invariant allPrompts == prompts + BasicExtraction(lines[..i]).value.prompts
      invariant scriptLines == BasicExtraction(lines[..i]).value.scriptLines
    {
      var line := lines[i];
      BasicExtractionStep(lines, i);
      if IsNumbered(line) {
        if !Contains(line, ". ") {
          NoneWhenPrefixFails(lines, i + 1);
          return false, allPrompts, scriptLines;
        }
        allPrompts := allPrompts + [Strip(After(line, ". "))];
      } else {
        scriptLines := scriptLines + [line];
      }
      i := i + 1;
    }
    assert lines[..i] == lines;
    return true, allPrompts, scriptLines;
  }

  /** One more line of the extraction. */
  lemma BasicExtractionStep(lines: seq<string>, i: nat)
    requires i < |lines|
    ensures var e := BasicExtraction(lines[..i]);
      var line := lines[i];
      BasicExtraction(lines[..i + 1]) ==
        if e.None? then None
        else if !IsNumbered(line) then Some(e.value.(scriptLines := e.value.scriptLines + [line]))
        else if Contains(line, ". ") then Some(e.value.(prompts := e.value.prompts + [Strip(After(line, ". "))]))
        else None
  {
    assert lines[..i + 1][..i] == lines[..i];
    assert lines[..i + 1][i] == lines[i];
  }

  /** Once a prefix of the lines raises, so do all the lines. */
  lemma {:induction false} NoneWhenPrefixFails(lines: seq<string>, n: nat)
    requires n <= |lines| && BasicExtraction(lines[..n]).None?
    ensures BasicExtraction(lines).None?
    decreases |lines| - n
  {
    if n < |lines| {
      assert lines[..n + 1][..n] == lines[..n];
      NoneWhenPrefixFails(lines, n + 1);
    } else {
      assert lines[..n] == lines;
    }
  }

  /** The emotion (lines 101-119). */
  method ParseEmotion(content: string) returns (emotion: string)
    ensures emotion == Emotion(content)
  {
    if Contains(content, EmotionStart) && Contains(content, EmotionEnd) {
      emotion := Lower(Strip(Between(content, EmotionStart, EmotionEnd)));
    } else {
      emotion := ScanEmotion(Split(content, "\n"));
    }
  }

  /** The image prompts (lines 131-149). */
  method ParsePrompts(content: string) returns (imagePrompts: seq<string>)
    ensures imagePrompts == ImagePrompts(content)
  {
    imagePrompts := [];
    if Contains(content, PromptsStart) && Contains(content, PromptsEnd) {
      var promptsText := Strip(Between(content, PromptsStart, PromptsEnd));
      imagePrompts := NonBlankStripped(Split(promptsText, "\n"));
    } else if Contains(content, PromptsLabel) {
      var promptsText := Strip(Split(content, PromptsLabel)[1]);
      imagePrompts := CollectLegacyPrompts(Split(promptsText, "\n"));
    }
  }

  /** The title or the description (lines 151-177). */
  method ParseLabeled(content: string, start: string, end: string, prefixes: seq<string>) returns (text: string)
    requires start != [] && end != []
    ensures text == MarkedOrLabeled(content, start, end, prefixes)
  {
    if Contains(content, start) && Contains(content, end) {
      text := Strip(Between(content, start, end));
    } else {
      text := ScanLabel(Split(content, "\n"), prefixes);
    }
  }

  /** The narrator check and standardisation (lines 179-212). */
  method StandardizeScript(scriptSection: string) returns (script: string)
    ensures script == Standardized(scriptSection)
  {
    script := scriptSection;
    var hasNarratorFormat := FindNarratorFormat(Split(scriptSection, "\n"));
    if !hasNarratorFormat {
      var fixedScriptLines := FixScriptLines(Split(scriptSection, "\n"));
      script := Join(fixedScriptLines, "\n");
    }
  }

  /** The parse as the source runs it: each section with its loops, the
      fallbacks in order, and the error tuple where the extraction raises. */
  method ParseResponse(content: string) returns (out: ScriptOutput)
    ensures out == Parsed(content)
  {
    var emotion := ParseEmotion(content);
    var scriptSection := ScriptSection(content);
    var imagePrompts := ParsePrompts(content);
    var title := ParseLabeled(content, TitleStart, TitleEnd, TitlePrefixes);
    var description := ParseLabeled(content, DescriptionStart, DescriptionEnd, DescriptionPrefixes);
    scriptSection := StandardizeScript(scriptSection);
    if scriptSection == "" || imagePrompts == [] {
      var ok, allPrompts, scriptLines := ExtractBasic(Split(content, "\n"), imagePrompts);
      if !ok {
        return ErrorOutput;
      }
      imagePrompts := allPrompts;
      if scriptSection == "" {
        scriptSection := Join(scriptLines, "\n");
      }
    }
    out := ScriptOutput(scriptSection, imagePrompts, emotion, title, description);
  }
}
