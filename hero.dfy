/**
 * Hero.tsx: the typewriter in the hero section. An effect shows one more code token per
 * timer tick, waiting 1000 ms before the first and 30 to 100 ms (by the token's kind)
 * before each later one; reaching the easter-egg token starts the cube.
 */
module Hero {
  import opened Wrappers

  /** A code token: its text, its optional `type`, whether a line break follows it, and its
      optional `special` marker. */
  datatype Token = Token(text: string, kind: Option<string>, newLine: bool, special: Option<string>)

  const EasterEgg: string := "easter-egg"

  /** A token without a special marker. */
  datatype Piece = Piece(text: string, kind: Option<string>, newLine: bool)

  /** The snippet's ordinary tokens, one display per rendered line. */
  const Body: seq<Piece> :=
    [Piece("// Zsolt's Daily AI/Frontend Struggles", Some("comment"), true)]
    + [Piece("const", Some("keyword"), false),
       Piece(" ", None, false),
       Piece("debugAI", Some("variable"), false),
       Piece(" = ", None, false),
       Piece("async", Some("keyword"), false),
       Piece(" () => {", None, true)]
    + [Piece("  ", Some("indent"), false),
       Piece("if", Some("keyword"), false),
       Piece("(model.isHallucinating()) {", None, true)]
    + [Piece("    ", Some("indent"), false),
       Piece("console", Some("variable"), false),
       Piece(".log(", None, false),
       Piece("\"AI thinks 2+2=fish \U{1F41F}\"", Some("string"), false),
       Piece(");", None, true)]
    + [Piece("    ", Some("indent"), false),
       Piece("return", Some("keyword"), false),
       Piece(" ", None, false),
       Piece("RAG", Some("class"), false),
       Piece(".addMoreContext();", None, true)]
    + [Piece("  }", None, true)]
    + [Piece("  ", Some("indent"), false),
       Piece("if", Some("keyword"), false),
       Piece("(React.isAngry()) {", None, true)]
    + [Piece("    ", Some("indent"), false),
       Piece("throw", Some("keyword"), false),
       Piece(" ", None, false),
       Piece("new", Some("keyword"), false),
       Piece(" ", None, false),
       Piece("Error", Some("class"), false),
       Piece("(", None, false),
       Piece("\"Hydration failed again!\"", Some("string"), false),
       Piece(");", None, true)]
    + [Piece("  }", None, true)]
    + [Piece("};", None, true)]
    + [Piece("", None, true)]
    + [Piece("// The Hungarian solution\U{2122}", Some("comment"), true)]
    + [Piece("useEffect", Some("method"), false),
       Piece("(() => {", None, true)]
    + [Piece("  ", Some("indent"), false),
       Piece("if", Some("keyword"), false),
       Piece("(typeof window !== ", None, false),
       Piece("\"undefined\"", Some("string"), false),
       Piece(") {", None, true)]
    + [Piece("    ", Some("indent"), false),
       Piece("// Deploy the magic cube! \U{1F3AF}", Some("comment"), true)]
    + [Piece("    ", Some("indent"), false),
       Piece("cube", Some("variable"), false),
       Piece(".", None, false),
       Piece("start", Some("method"), false),
       Piece("();", None, true)]
    + [Piece("  }", None, true)]

  /** The ordinary tokens, none of them marked special. */
  function Unmarked(pieces: seq<Piece>): (ts: seq<Token>)
    ensures |ts| == |pieces|
    ensures forall i :: 0 <= i < |pieces| ==>
      ts[i] == Token(pieces[i].text, pieces[i].kind, pieces[i].newLine, None)
  {
    if pieces == [] then []
    else [Token(pieces[0].text, pieces[0].kind, pieces[0].newLine, None)] + Unmarked(pieces[1..])
  }

  /** The tokens of the hero's code snippet, in display order; only the last one, the
      easter egg, is special. */
  const CodeTokens: seq<Token> := Unmarked(Body) + [Token("}, []);", None, false, Some(EasterEgg))]

  /** String.prototype.length: UTF-16 code units, two for a character outside the BMP. */
  function Utf16Length(s: string): (n: nat)
    ensures |s| <= n <= 2 * |s|
  {
    if s == [] then 0 else (if s[0] as int > 0xFFFF then 2 else 1) + Utf16Length(s[1..])
  }

  /** The delay before the token after `t`: a line break waits 100, a string 50, a text
      longer than five code units 40, anything else 30. */
  function Delay(t: Token): (ms: nat)
    ensures ms in {30, 40, 50, 100}
    ensures ms == 100 <==> t.newLine
    ensures ms == 50 <==> !t.newLine && t.kind == Some("string")
    ensures ms == 40 <==> !t.newLine && t.kind != Some("string") && Utf16Length(t.text) > 5
    ensures ms == 30 <==> !t.newLine && t.kind != Some("string") && Utf16Length(t.text) <= 5
  {
    if t.newLine then 100
    else if t.kind == Some("string") then 50
    else if Utf16Length(t.text) > 5 then 40
    else 30
  }

  /** The timeout scheduled while token `index` is current: 1000 before the first step. */
  function StepDelay(index: nat): (ms: nat)
    requires index < |CodeTokens|
    ensures index == 0 ==> ms == 1000
    ensures index > 0 ==> ms == Delay(CodeTokens[index])
  {
    if index == 0 then 1000 else Delay(CodeTokens[index])
  }

  /** The first token is a comment line, so 1000 replaces what would have been 100. */
  lemma FirstDelayOverridden()
    ensures StepDelay(0) == 1000 && Delay(CodeTokens[0]) == 100
  {
    assert CodeTokens[0] == Unmarked(Body)[0];
  }

  /** The easter egg marks exactly the last token. */
  lemma EasterEggIsLast(i: nat)
    requires i < |CodeTokens|
    ensures CodeTokens[i].special == Some(EasterEgg) <==> i == |CodeTokens| - 1
  {
    if i < |Body| {
      assert CodeTokens[i] == Unmarked(Body)[i];
    }
  }

  const PulseStyle: string := "text-red-400 animate-pulse"
  const DefaultStyle: string := "text-dark-300"

  /** The token types getTokenStyle has a case for. */
  const KnownKinds: set<string> :=
    {"comment", "keyword", "class", "variable", "parameter", "property", "string", "method"}

  /** getTokenStyle: the class for a token's type; a method token pulses red only when it is
      the easter egg, any other method is light blue, and a missing or unlisted type (such
      as "indent") gets the default class. */
  function TokenStyle(kind: Option<string>, special: Option<string>): (style: string)
    ensures style == PulseStyle <==> kind == Some("method") && special == Some(EasterEgg)
    ensures kind == Some("method") && special != Some(EasterEgg) ==> style == "text-blue-300"
    ensures kind.None? || kind.value !in KnownKinds ==> style == DefaultStyle
  {
    if kind.None? then DefaultStyle
    else
      match kind.value
      case "comment" => "text-dark-500"
      case "keyword" => "text-blue-400"
      case "class" => "text-yellow-400"
      case "variable" => "text-yellow-300"
      case "parameter" => "text-orange-400"
      case "property" => "text-green-400"
      case "string" => "text-green-300"
      case "method" => if special == Some(EasterEgg) then PulseStyle else "text-blue-300"
      case _ => DefaultStyle
  }

  /** The easter-egg token has no type, so it is drawn in the default style: no token of
      the snippet ever gets the pulsing style. */
  lemma PulseStyleNeverUsed(i: nat)
    requires i < |CodeTokens|
    ensures TokenStyle(CodeTokens[i].kind, CodeTokens[i].special) != PulseStyle
  {
    EasterEggIsLast(i);
  }

  class Typewriter {
    var currentTokenIndex: nat
    var showCube: bool

    /** The index never passes the end, and the cube has started exactly once the
        easter-egg token has been reached by the effect. */
    ghost predicate Valid()
      reads this
    {
      && currentTokenIndex <= |CodeTokens|
      && (showCube ==> currentTokenIndex >= |CodeTokens| - 1)
    }

    /** The tokens drawn: exactly those before the index. */
    function Rendered(): (shown: seq<Token>)
      reads this
      requires Valid()
      ensures |shown| == currentTokenIndex
      ensures forall i :: 0 <= i < |shown| ==> shown[i] == CodeTokens[i]
    {
      CodeTokens[..currentTokenIndex]
    }

    /** The blinking cursor, shown until every token is drawn. */
    predicate CursorShown()
      reads this
    {
      currentTokenIndex < |CodeTokens|
    }

    constructor ()
      ensures Valid() && currentTokenIndex == 0 && !showCube && CursorShown()
    {
      currentTokenIndex, showCube := 0, false;
    }

    /**
     * The effect on the index: past the end it does nothing; otherwise it starts the cube
     * (setShowCube and onCubeStart, when a callback is given) at the easter-egg token and
     * schedules the next step after StepDelay.
     */
    method RunEffect(hasOnCubeStart: bool) returns (scheduled: Option<nat>, cubeStartCalled: bool)
      requires Valid()
      modifies this`showCube
      ensures Valid()
      ensures scheduled.None? <==> old(currentTokenIndex) >= |CodeTokens|
      ensures scheduled.Some? ==> scheduled.value == StepDelay(currentTokenIndex)
      ensures showCube == (old(showCube) || currentTokenIndex == |CodeTokens| - 1)
      ensures cubeStartCalled <==> hasOnCubeStart && currentTokenIndex == |CodeTokens| - 1
    {
      cubeStartCalled := false;
      if currentTokenIndex >= |CodeTokens| {
        return None, false;
      }
      var currentToken := CodeTokens[currentTokenIndex];
      EasterEggIsLast(currentTokenIndex);
      if currentToken.special == Some(EasterEgg) {
        showCube := true;
        if hasOnCubeStart {
          cubeStartCalled := true;
        }
      }
      scheduled := Some(StepDelay(currentTokenIndex));
    }

    /** The scheduled timeout: one more token. It exists only while tokens remain. */
    method TimerFired()
      requires Valid() && CursorShown()
      modifies this`currentTokenIndex
      ensures Valid() && currentTokenIndex == old(currentTokenIndex) + 1
      ensures |Rendered()| == |old(Rendered())| + 1
    {
      currentTokenIndex := currentTokenIndex + 1;
    }
  }
}
