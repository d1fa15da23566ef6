/** Image download (services/image_generator.py). The HTTP request and the
    file write are one collaborator per image URL. */
module ImageService {
  import opened Text

  const Width := 1024
  const Height := 1024
  const Model := "flux"
  const FirstSeed := 42
  const MaxNameLength := 50
  /** `settings.IMAGES_DIR` and the default of `settings.PLACEHOLDER_IMAGE_PATH` (config.py). */
  const ImagesDir := "output/images"
  const PlaceholderImagePath := "assets/placeholder.jpg"

  /** One download attempt: the response's status code and whether writing
      its content to the output file succeeded, or a request that raised. */
  datatype Attempt = Response(status: int, written: bool) | Raised

  /** Characters the pattern `[^a-zA-Z0-9\s]` does not match. */
  predicate IsKept(c: char) {
    IsAsciiLetter(c) || IsAsciiDigit(c) || IsSpace(c)
  }

  /** A character a sanitised prompt may hold. */
  predicate IsNameChar(c: char) {
    ('a' <= c <= 'z') || IsAsciiDigit(c) || c == '_' || (IsSpace(c) && c != ' ')
  }

  /** `re.sub(r'[^a-zA-Z0-9\s]', '_', prompt)` */
  function SafePrompt(prompt: string): (r: string)
    ensures |r| == |prompt|
    ensures forall i :: 0 <= i < |r| ==> r[i] == (if IsKept(prompt[i]) then prompt[i] else '_')
  {
    seq(|prompt|, i requires 0 <= i < |prompt| => if IsKept(prompt[i]) then prompt[i] else '_')
  }

  /** `_sanitize_prompt(prompt)`, with the one-character `replace(' ', '_')`
      written as a substitution (see `SanitizeIsReplace`). Only ASCII letters
      survive the pattern, so the ASCII `lower` is Python's here. */
  function Sanitize(prompt: string): string {
    Lower(SubstituteChar(Strip(Take(SafePrompt(prompt), MaxNameLength)), ' ', '_'))
  }

  /** The definition agrees with the source's `.replace(' ', '_')`. */
  lemma SanitizeIsReplace(prompt: string)
    ensures Sanitize(prompt) == Lower(Replace(Strip(Take(SafePrompt(prompt), MaxNameLength)), " ", "_"))
  {
    ReplaceSingleChar(Strip(Take(SafePrompt(prompt), MaxNameLength)), ' ', '_');
  }

  /** The sanitised prompt is the trimmed first 50 characters of the
      substituted prompt, spaces turned into '_' and letters lowered. */
  lemma SanitizeChars(prompt: string)
    ensures var t := Strip(Take(SafePrompt(prompt), MaxNameLength));
      && |Sanitize(prompt)| == |t|
      && forall i :: 0 <= i < |t| ==> Sanitize(prompt)[i] == LowerChar(if t[i] == ' ' then '_' else t[i])
  {
  }

  /** A character kept or substituted by the pattern, after the space
      replacement and `lower`, is one a sanitised prompt may hold. */
  lemma NameChar(c: char)
    requires c == '_' || IsKept(c)
    ensures IsNameChar(LowerChar(if c == ' ' then '_' else c))
  {
  }

  /** Every character of the trimmed cut was kept or substituted. */
  lemma CutChars(prompt: string)
    ensures var t := Strip(Take(SafePrompt(prompt), MaxNameLength));
      forall i :: 0 <= i < |t| ==> t[i] == '_' || IsKept(t[i])
  {
    var cut := Take(SafePrompt(prompt), MaxNameLength);
    StripInside(cut);
    var t := Strip(cut);
    forall i | 0 <= i < |t| ensures t[i] == '_' || IsKept(t[i]) {
      assert t[i] in cut;
      var j :| 0 <= j < |cut| && cut[j] == t[i];
      assert cut[j] == SafePrompt(prompt)[j];
    }
  }

  /** A sanitised prompt has at most 50 characters, no space, no upper-case
      letter and only letters, digits, '_' and non-space whitespace. */
  lemma SanitizeShape(prompt: string)
    ensures |Sanitize(prompt)| <= MaxNameLength
    ensures forall i :: 0 <= i < |Sanitize(prompt)| ==> IsNameChar(Sanitize(prompt)[i])
  {
    var t := Strip(Take(SafePrompt(prompt), MaxNameLength));
    SanitizeChars(prompt);
    CutChars(prompt);
    var r := Sanitize(prompt);
    forall i | 0 <= i < |t| ensures IsNameChar(r[i]) {
      NameChar(t[i]);
    }
  }

  /** A sanitised prompt neither starts nor ends with whitespace. */
  lemma SanitizeTrimmed(prompt: string)
    ensures Sanitize(prompt) != [] ==>
      !IsSpace(Sanitize(prompt)[0]) && !IsSpace(Sanitize(prompt)[|Sanitize(prompt)| - 1])
  {
    var t := Strip(Take(SafePrompt(prompt), MaxNameLength));
    assert t != [] ==> !IsSpace(t[0]) && !IsSpace(t[|t| - 1]);
    EndsStayNonSpace(t);
    assert Sanitize(prompt) == Lower(SubstituteChar(t, ' ', '_'));
  }

  /** Substituting '_' for ' ' and lowering keeps non-space ends non-space. */
  lemma EndsStayNonSpace(t: string)
    requires t != [] ==> !IsSpace(t[0]) && !IsSpace(t[|t| - 1])
    ensures var r := Lower(SubstituteChar(t, ' ', '_'));
      r != [] ==> !IsSpace(r[0]) && !IsSpace(r[|r| - 1])
  {
    var r := Lower(SubstituteChar(t, ' ', '_'));
    if r != [] {
      assert r[0] == LowerChar(t[0]);
      assert r[|r| - 1] == LowerChar(t[|t| - 1]);
    }
  }

  /** Every character of a stripped string comes from the input. */
  lemma StripInside(s: string)
    ensures forall i :: 0 <= i < |Strip(s)| ==> Strip(s)[i] in s
  {
    assert Strip(s) == RStrip(LStrip(s));
    var l := LStrip(s);
    assert forall i :: 0 <= i < |l| ==> l[i] == s[|s| - |l| + i];
  }

  /** `f"{stem}_{seed}.jpg"` joined under the images directory; the name
      never starts with '/', so `os.path.join` only inserts the separator. */
  function OutputPath(stem: string, seed: nat): string {
    PathJoin(ImagesDir, FileName(stem, NatToString(seed)))
  }

  function FileName(stem: string, seed: string): string {
    stem + "_" + seed + ".jpg"
  }

  function PathJoin(dir: string, name: string): string {
    dir + "/" + name
  }

  /** The Pollinations URL for a prompt (the prompt is inserted as is). */
  function ImageUrl(prompt: string, seed: nat): string {
    "https://pollinations.ai/p/" + prompt + "?width=" + NatToString(Width) + "&height="
      + NatToString(Height) + "&seed=" + NatToString(seed) + "&model=" + Model
  }

  /** The path recorded for the i-th prompt: its file after a 200 response
      whose content was written, the placeholder otherwise. */
  function ImagePath(prompt: string, i: nat, fetch: string -> Attempt): string {
    var seed := FirstSeed + i;
    match fetch(ImageUrl(prompt, seed))
    case Response(status, written) =>
      if status == 200 && written then OutputPath(Sanitize(prompt), seed) else PlaceholderImagePath
    case Raised => PlaceholderImagePath
  }

  /** The paths of `prompts`, numbered from `first`, where `pathOf` gives
      the path of one numbered prompt. */
  function PathsFrom(prompts: seq<string>, first: nat, pathOf: (string, nat) -> string): (r: seq<string>)
    ensures |r| == |prompts|
    decreases |prompts|
  {
    if prompts == [] then [] else [pathOf(prompts[0], first)] + PathsFrom(prompts[1..], first + 1, pathOf)
  }

  /** The k-th of those paths belongs to the k-th prompt. */
  lemma {:induction false} PathsFromAt(prompts: seq<string>, first: nat, pathOf: (string, nat) -> string, k: nat)
    requires k < |prompts|
    ensures PathsFrom(prompts, first, pathOf)[k] == pathOf(prompts[k], first + k)
    decreases k
  {
    if k > 0 {
      PathsFromAt(prompts[1..], first + 1, pathOf, k - 1);
    }
  }

  /** The list `generate_images` returns: one path per prompt, in order. */
  function ImageList(prompts: seq<string>, fetch: string -> Attempt): seq<string> {
    PathsFrom(prompts, 0, (p: string, n: nat) => ImagePath(p, n, fetch))
  }

  /** The list has one path per prompt, the i-th being prompt i's. */
  lemma ImageListAt(prompts: seq<string>, fetch: string -> Attempt, i: nat)
    requires i < |prompts|
    ensures |ImageList(prompts, fetch)| == |prompts|
    ensures ImageList(prompts, fetch)[i] == ImagePath(prompts[i], i, fetch)
  {
    PathsFromAt(prompts, 0, (p: string, n: nat) => ImagePath(p, n, fetch), i);
  }

  /** `generate_images(image_prompts)`: never raises. */
  method GenerateImages(imagePrompts: seq<string>, fetch: string -> Attempt) returns (imagePaths: seq<string>)
    ensures imagePaths == ImageList(imagePrompts, fetch)
  {
    ghost var pathOf := (p: string, n: nat) => ImagePath(p, n, fetch);
    imagePaths := [];
    var i := 0;
    while i < |imagePrompts|
      invariant 0 <= i <= |imagePrompts|
      invariant imagePaths + PathsFrom(imagePrompts[i..], i, pathOf) == PathsFrom(imagePrompts, 0, pathOf)
    {
      var path := DownloadImage(imagePrompts[i], i, fetch);
      assert imagePrompts[i..][1..] == imagePrompts[i + 1..];
      assert path == pathOf(imagePrompts[i], i);
      imagePaths := imagePaths + [path];
      i := i + 1;
    }
    assert imagePrompts[i..] == [];
  }

  /** One iteration: the request for prompt i and the path it records. */
  method DownloadImage(prompt: string, i: nat, fetch: string -> Attempt) returns (path: string)
    ensures path == ImagePath(prompt, i, fetch)
  {
    var seed := FirstSeed + i;
    var outputPath := OutputPath(Sanitize(prompt), seed);
    var imageUrl := ImageUrl(prompt, seed);
    var response := fetch(imageUrl);
    path := PlaceholderImagePath;
    if response.Response? && response.status == 200 && response.written {
      path := outputPath;
    }
  }

  /** The i-th path is the placeholder or the i-th prompt's file at seed 42 + i. */
  lemma ImagePathCases(prompt: string, i: nat, fetch: string -> Attempt)
    ensures ImagePath(prompt, i, fetch) == PlaceholderImagePath
         || ImagePath(prompt, i, fetch) == OutputPath(Sanitize(prompt), FirstSeed + i)
    ensures fetch(ImageUrl(prompt, FirstSeed + i)).Raised? ==> ImagePath(prompt, i, fetch) == PlaceholderImagePath
  {
  }

  /** `str(n)` has one character exactly for the one-digit numbers. */
  lemma NatToStringLength(n: nat)
    ensures |NatToString(n)| == 1 <==> n < 10
  {
  }

  lemma {:induction false} NatToStringInjective(a: nat, b: nat)
    requires NatToString(a) == NatToString(b)
    ensures a == b
    decreases a
  {
    var sa, sb := NatToString(a), NatToString(b);
    var digits := ['0', '1', '2', '3', '4', '5', '6', '7', '8', '9'];
    assert sa[|sa| - 1] == digits[a % 10];
    assert sb[|sb| - 1] == digits[b % 10];
    NatToStringLength(a);
    NatToStringLength(b);
    if a >= 10 {
      assert sa[..|sa| - 1] == NatToString(a / 10);
      assert sb[..|sb| - 1] == NatToString(b / 10);
      NatToStringInjective(a / 10, b / 10);
    }
  }

  /** The last '_' of `x + "_" + m`, for a digit string m, is the one added. */
  lemma BeforeLastUnderscore(x: string, m: string)
    requires forall i :: 0 <= i < |m| ==> IsAsciiDigit(m[i])
    ensures BeforeLast(x + "_" + m, '_') == x
  {
    var w := x + "_" + m;
    assert w[|x|] == '_';
    var r := BeforeLast(w, '_');
    assert |r| >= |x|;
    assert w[|r|] == '_';
    assert !IsAsciiDigit(w[|r|]);
    DigitsAfter(x, m);
    assert r == w[..|x|] == x;
  }

  lemma DigitsAfter(x: string, m: string)
    requires forall i :: 0 <= i < |m| ==> IsAsciiDigit(m[i])
    ensures forall k :: |x| < k < |x + "_" + m| ==> IsAsciiDigit((x + "_" + m)[k])
  {
    var w := x + "_" + m;
    forall k | |x| < k < |w| ensures IsAsciiDigit(w[k]) {
      assert w[k] == m[k - |x| - 1];
    }
  }

  lemma CancelAffixes(pre: string, x: string, y: string, suf: string)
    requires pre + x + suf == pre + y + suf
    ensures x == y
  {
    var w := pre + x + suf;
    assert |x| == |y|;
    assert x == w[|pre|..|pre| + |x|];
    assert y == (pre + y + suf)[|pre|..|pre| + |y|];
  }

  /** The digits after the last '_' of a file name are determined by it. */
  lemma FileNameDigits(a: string, b: string, m: string, n: string)
    requires forall i :: 0 <= i < |m| ==> IsAsciiDigit(m[i])
    requires forall i :: 0 <= i < |n| ==> IsAsciiDigit(n[i])
    requires FileName(a, m) == FileName(b, n)
    ensures m == n
  {
    assert [] + (a + "_" + m) == a + "_" + m;
    assert [] + (b + "_" + n) == b + "_" + n;
    CancelAffixes([], a + "_" + m, b + "_" + n, ".jpg");
    BeforeLastUnderscore(a, m);
    BeforeLastUnderscore(b, n);
    var x := a + "_" + m;
    assert m == x[|a| + 1..];
    assert n == (b + "_" + n)[|b| + 1..];
  }

  /** The output path determines the seed. */
  lemma OutputPathSeed(a: string, b: string, s: nat, t: nat)
    requires OutputPath(a, s) == OutputPath(b, t)
    ensures s == t
  {
    var x, y := FileName(a, NatToString(s)), FileName(b, NatToString(t));
    CancelAffixes(ImagesDir + "/", x, y, []);
    FileNameDigits(a, b, NatToString(s), NatToString(t));
    NatToStringInjective(s, t);
  }

  /** Downloaded images never share a file: two different prompt positions
      give two different output paths, even for the same prompt. */
  lemma OutputPathsDistinct(p: string, q: string, i: nat, j: nat)
    requires i != j
    ensures OutputPath(Sanitize(p), FirstSeed + i) != OutputPath(Sanitize(q), FirstSeed + j)
  {
    DistinctSeedPaths(Sanitize(p), Sanitize(q), i, j);
  }

  lemma DistinctSeedPaths(a: string, b: string, i: nat, j: nat)
    requires i != j
    ensures OutputPath(a, FirstSeed + i) != OutputPath(b, FirstSeed + j)
  {
    if OutputPath(a, FirstSeed + i) == OutputPath(b, FirstSeed + j) {
      OutputPathSeed(a, b, FirstSeed + i, FirstSeed + j);
    }
  }
}
