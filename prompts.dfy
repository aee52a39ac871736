/** The text `generateAiVideo` sends to the generator (convex/actions.ts): a per-style base
    prompt, a per-role scene sentence naming the product, and the product name taken from
    the job's prompt. Also the JavaScript string operations these use. */
module Prompts {
  import opened Wrappers
  import opened Schema

  const StyleSuffix: string := "1080x1920 vertical format, 6 seconds duration."

  /** The part of a style's base prompt that is particular to the style. */
  function StylePhrase(styleId: string): string {
    match styleId
    case "cinematic" => "Cinematic film look, shallow depth of field, dramatic lighting, "
    case "vibrant" => "Vibrant and colorful, saturated colors, dynamic lighting, "
    case "slowmo" => "Slow motion effect, smooth and fluid, soft lighting, "
    case "minimal" => "Minimal and clean, neutral tones, soft natural lighting, "
    case "rustic" => "Rustic and warm, earthy tones, golden hour lighting, "
    case "luxury" => "Luxury and elegant, rich colors, sophisticated lighting, "
    case _ => DefaultStylePhrase
  }

  const DefaultStylePhrase: string := "Cinematic, warm lighting, reduced noise, 8k resolution, "

  /** The base prompt for a style id: six named styles, anything else gets the default. */
  function BaseStylePrompt(styleId: string): string {
    StylePhrase(styleId) + StyleSuffix
  }

  /** Every base prompt asks for the same vertical format and six-second duration; any id
      outside the six named styles gets the default prompt, and no named style does. */
  lemma BaseStylePromptTable(styleId: string)
    ensures |StyleSuffix| <= |BaseStylePrompt(styleId)|
    ensures BaseStylePrompt(styleId)[|BaseStylePrompt(styleId)| - |StyleSuffix|..] == StyleSuffix
    ensures !NamedStyle(styleId) <==> BaseStylePrompt(styleId) == DefaultStylePhrase + StyleSuffix
  {
    ConcatSlices(StylePhrase(styleId), [], StyleSuffix);
    assert BaseStylePrompt(styleId) == StylePhrase(styleId) + [] + StyleSuffix;
    if NamedStyle(styleId) {
      assert |StylePhrase(styleId)| != |DefaultStylePhrase|;
    }
  }

  /** Slicing a three-part concatenation back into its parts. */
  lemma ConcatSlices(a: string, x: string, b: string)
    ensures var s := a + x + b;
      && s[..|a|] == a
      && s[|a|..|s| - |b|] == x
      && s[|s| - |b|..] == b
  {
  }

  /** The words of a scene sentence before and after the product name. */
  function SceneLead(role: Role): string {
    match role
    case Intro => "Close-up hero shot of "
    case Main => "Slow panning shot around "
    case Outro => "Wide shot of "
  }

  function SceneTail(role: Role): string {
    match role
    case Intro => ", static camera, focus pull. "
    case Main => " revealing details. "
    case Outro => " with lifestyle elements, fade out vibe. "
  }

  /** The scene sentence for a role, and the full prompt: scene sentence then style prompt. */
  function ScenePrompt(role: Role, productName: string): string {
    SceneLead(role) + productName + SceneTail(role)
  }

  function FullPrompt(role: Role, productName: string, styleId: string): string {
    ScenePrompt(role, productName) + BaseStylePrompt(styleId)
  }

  /** The product name a full prompt mentions, recovered from the prompt text alone. */
  function SubjectOf(role: Role, styleId: string, prompt: string): string
    requires |SceneLead(role)| + |SceneTail(role)| + |BaseStylePrompt(styleId)| <= |prompt|
  {
    prompt[|SceneLead(role)|..|prompt| - |SceneTail(role)| - |BaseStylePrompt(styleId)|]
  }

  /** Slicing a four-part concatenation: its head, its second part and its end. */
  lemma FourPartSlices(lead: string, name: string, tail: string, base: string)
    ensures var p := lead + name + tail + base;
      && |lead| + |tail| + |base| <= |p|
      && p[|lead|..|p| - |tail| - |base|] == name
      && p[..|lead|] == lead
      && p[|p| - |base|..] == base
  {
    var p := lead + name + tail + base;
    assert p == lead + name + (tail + base);
    ConcatSlices(lead, name, tail + base);
    ConcatSlices(lead + name, tail, base);
  }

  /** The full prompt names the product verbatim, starts with the role's sentence and ends
      with the style prompt. */
  lemma FullPromptParts(role: Role, productName: string, styleId: string)
    ensures var p := FullPrompt(role, productName, styleId);
      && |SceneLead(role)| + |SceneTail(role)| + |BaseStylePrompt(styleId)| <= |p|
      && SubjectOf(role, styleId, p) == productName
      && p[..|SceneLead(role)|] == SceneLead(role)
      && p[|p| - |BaseStylePrompt(styleId)|..] == BaseStylePrompt(styleId)
  {
    FourPartSlices(SceneLead(role), productName, SceneTail(role), BaseStylePrompt(styleId));
  }

  /** Different roles always give different prompts: their sentences start differently. */
  lemma FullPromptsDiffer(role: Role, name: string, other: Role, name2: string, styleId: string)
    requires role != other
    ensures FullPrompt(role, name, styleId) != FullPrompt(other, name2, styleId)
  {
    var p, q := FullPrompt(role, name, styleId), FullPrompt(other, name2, styleId);
    FullPromptParts(role, name, styleId);
    FullPromptParts(other, name2, styleId);
    assert p[0] == p[..|SceneLead(role)|][0] == SceneLead(role)[0];
    assert q[0] == q[..|SceneLead(other)|][0] == SceneLead(other)[0];
  }

  /** JavaScript `s.split(" ")`: the pieces between single spaces; never empty. */
  function Split(s: string): (r: seq<string>)
    ensures |r| >= 1
  {
    if s == [] then [[]]
    else if s[0] == ' ' then [[]] + Split(s[1..])
    else var rest := Split(s[1..]); [[s[0]] + rest[0]] + rest[1..]
  }

  /** JavaScript `parts.join(" ")`. */
  function Join(parts: seq<string>): string {
    if |parts| == 0 then []
    else if |parts| == 1 then parts[0]
    else parts[0] + " " + Join(parts[1..])
  }

  /** Splitting at spaces and joining again gives back the string. */
  lemma {:induction false} JoinSplit(s: string)
    ensures Join(Split(s)) == s
  {
    if s != [] {
      JoinSplit(s[1..]);
      var rest := Split(s[1..]);
      if s[0] != ' ' {
        assert Split(s) == [[s[0]] + rest[0]] + rest[1..];
      }
    }
  }

  /** The longest prefix of `s` holding fewer than `n` spaces. */
  function PrefixBeforeSpaces(s: string, n: nat): string
    requires n >= 1
  {
    if s == [] then []
    else if s[0] == ' ' then (if n == 1 then [] else [' '] + PrefixBeforeSpaces(s[1..], n - 1))
    else [s[0]] + PrefixBeforeSpaces(s[1..], n)
  }

  lemma {:induction false} PrefixBeforeSpacesIsPrefix(s: string, n: nat)
    requires n >= 1
    ensures var p := PrefixBeforeSpaces(s, n); |p| <= |s| && s[..|p|] == p
    ensures var p := PrefixBeforeSpaces(s, n); |p| < |s| ==> s[|p|] == ' '
  {
    if s != [] && !(s[0] == ' ' && n == 1) {
      PrefixBeforeSpacesIsPrefix(s[1..], if s[0] == ' ' then n - 1 else n);
    }
  }

  lemma JoinCons(a: string, tail: seq<string>)
    ensures Join([a] + tail) == if tail == [] then a else a + " " + Join(tail)
  {
    if tail != [] {
      assert ([a] + tail)[1..] == tail;
    }
  }

  lemma TakeCons<T>(a: T, tail: seq<T>, n: nat)
    requires n >= 1
    ensures Take([a] + tail, n) == [a] + Take(tail, n - 1)
  {
    if |[a] + tail| > n {
      assert ([a] + tail)[..n] == [a] + tail[..n - 1];
    }
  }

  /** Keeping the first `n` pieces of a split and joining them is the prefix before the
      `n`-th space. */
  lemma {:induction false} JoinTakeSplit(s: string, n: nat)
    requires n >= 1
    ensures Join(Take(Split(s), n)) == PrefixBeforeSpaces(s, n)
  {
    if s == [] {
      assert Take(Split(s), n) == [[]];
    } else if s[0] == ' ' {
      var rest := Split(s[1..]);
      assert Split(s) == [[]] + rest;
      TakeCons([], rest, n);
      if n > 1 {
        JoinTakeSplit(s[1..], n - 1);
        JoinCons([], Take(rest, n - 1));
      } else {
        assert Take(rest, 0) == [];
      }
    } else {
      var rest := Split(s[1..]);
      JoinTakeSplit(s[1..], n);
      var tail := Take(rest[1..], n - 1);
      assert rest == [rest[0]] + rest[1..];
      TakeCons([s[0]] + rest[0], rest[1..], n);
      TakeCons(rest[0], rest[1..], n);
      JoinCons([s[0]] + rest[0], tail);
      JoinCons(rest[0], tail);
    }
  }

  /** `prompt.split(" ").slice(0, 3).join(" ") || "product"`. */
  function ProductName(prompt: string): string {
    var name := Join(Take(Split(prompt), 3));
    if name == [] then "product" else name
  }

  /** The product name is the job prompt up to its third space (its first three words), or
      "product" when that is empty. */
  lemma ProductNameIsFirstWords(prompt: string)
    ensures var p := PrefixBeforeSpaces(prompt, 3);
      && ProductName(prompt) == (if p == [] then "product" else p)
      && |p| <= |prompt| && prompt[..|p|] == p
      && (|p| < |prompt| ==> prompt[|p|] == ' ')
  {
    JoinTakeSplit(prompt, 3);
    PrefixBeforeSpacesIsPrefix(prompt, 3);
  }

  /** Decimal digits of a number, as a template literal prints it. */
  function NatToString(n: nat): (r: string)
    ensures |r| >= 1 && forall k :: 0 <= k < |r| ==> '0' <= r[k] <= '9'
  {
    var d := ('0' as int + n % 10) as char;
    if n < 10 then [d] else NatToString(n / 10) + [d]
  }

  /** The number a string of decimal digits denotes. */
  function DigitsValue(s: string): nat {
    if s == [] then 0
    else
      var c := s[|s| - 1];
      DigitsValue(s[..|s| - 1]) * 10 + (if '0' <= c <= '9' then c as int - '0' as int else 0)
  }

  /** Printing a number and reading its digits back gives the number. */
  lemma {:induction false} NatToStringRoundTrip(n: nat)
    ensures DigitsValue(NatToString(n)) == n
  {
    var s := NatToString(n);
    assert s[..|s| - 1] == (if n < 10 then [] else NatToString(n / 10));
    if n >= 10 {
      NatToStringRoundTrip(n / 10);
    }
  }
}
