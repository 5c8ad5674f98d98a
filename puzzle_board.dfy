/**
 * The 3x3 sliding-puzzle board shared by MiniPuzzleGame.tsx and EmbeddedPuzzleGame.tsx.
 * A board is a sequence of nine cells holding 0..8, where 0 is the empty cell; cell
 * index e sits in row e / 3 and column e % 3.
 */
module PuzzleBoard {
  import opened Wrappers

  const Size: nat := 9

  /** The solved board [1, 2, 3, 4, 5, 6, 7, 8, 0], the starting point of every shuffle. */
  const SolvedBoard: seq<int> := [1, 2, 3, 4, 5, 6, 7, 8, 0]

  /**
   * A board: nine cells, each in 0..8, no value twice (hence a permutation of 0..8),
   * so the empty cell 0 occurs exactly once.
   */
  predicate IsBoard(b: seq<int>) {
    && |b| == Size
    && (forall i :: 0 <= i < |b| ==> 0 <= b[i] < Size)
    && (forall i, j :: 0 <= i < j < |b| ==> b[i] != b[j])
    && 0 in b
  }

  function Row(e: int): int { e / 3 }
  function Col(e: int): int { e % 3 }

  /** Two cells are orthogonal neighbours in the 3x3 grid. */
  predicate Adjacent(e: int, k: int) {
    || (Row(e) == Row(k) && (Col(e) - Col(k) == 1 || Col(k) - Col(e) == 1))
    || (Col(e) == Col(k) && (Row(e) - Row(k) == 1 || Row(k) - Row(e) == 1))
  }

  /**
   * getValidMoves: the cells the empty cell at e may trade places with, pushed in the
   * order up, down, left, right. They are exactly the in-grid orthogonal neighbours of e.
   */
  function ValidMoves(e: int): (moves: seq<int>)
    requires 0 <= e < Size
    ensures forall k :: k in moves <==> 0 <= k < Size && Adjacent(e, k)
    ensures 2 <= |moves| <= 4
    ensures forall i, j :: 0 <= i < j < |moves| ==> moves[i] != moves[j]
  {
    var row, col := e / 3, e % 3;
    (if row > 0 then [e - 3] else [])
    + (if row < 2 then [e + 3] else [])
    + (if col > 0 then [e - 1] else [])
    + (if col < 2 then [e + 1] else [])
  }

  lemma AdjacentSymmetric(e: int, k: int)
    ensures Adjacent(e, k) <==> Adjacent(k, e)
  {
  }

  /** indexOf: the first position of x in b, or |b| when x does not occur. */
  function IndexOf<T(==)>(b: seq<T>, x: T): (i: nat)
    ensures i <= |b|
    ensures i < |b| ==> b[i] == x
    ensures forall j :: 0 <= j < i ==> b[j] != x
  {
    if |b| == 0 then 0
    else if b[0] == x then 0
    else 1 + IndexOf(b[1..], x)
  }

  /** The empty cell of a board. */
  function EmptyIndex(b: seq<int>): (e: nat)
    requires IsBoard(b)
    ensures e < Size && b[e] == 0
    ensures forall j :: 0 <= j < Size && b[j] == 0 ==> j == e
  {
    IndexOf(b, 0)
  }

  /** Trading the contents of cells i and j; every other cell keeps its value. */
  function Swap(b: seq<int>, i: nat, j: nat): (c: seq<int>)
    requires i < |b| && j < |b|
    ensures |c| == |b| && c[i] == b[j] && c[j] == b[i]
    ensures forall k :: 0 <= k < |b| && k != i && k != j ==> c[k] == b[k]
    ensures multiset(c) == multiset(b)
  {
    b[i := b[j]][j := b[i]]
  }

  lemma SwapKeepsBoard(b: seq<int>, i: nat, j: nat)
    requires IsBoard(b) && i < Size && j < Size
    ensures IsBoard(Swap(b, i, j))
  {
    var c := Swap(b, i, j);
    forall p, q | 0 <= p < q < |c| ensures c[p] != c[q] {
      var p' := if p == i then j else if p == j then i else p;
      var q' := if q == i then j else if q == j then i else q;
      assert c[p] == b[p'] && c[q] == b[q'] && p' != q';
      if p' > q' { assert b[q'] != b[p']; }
    }
  }

  /** One legal move: the empty cell trades places with one of its valid moves. */
  predicate LegalMove(b: seq<int>, c: seq<int>) {
    && IsBoard(b)
    && exists k :: k in ValidMoves(EmptyIndex(b)) && c == Swap(b, EmptyIndex(b), k)
  }

  /** Trading the empty cell with one of its valid moves is a legal move to a board. */
  lemma ValidMoveIsLegal(b: seq<int>, k: int)
    requires IsBoard(b) && k in ValidMoves(EmptyIndex(b))
    ensures 0 <= k < Size && IsBoard(Swap(b, EmptyIndex(b), k)) && LegalMove(b, Swap(b, EmptyIndex(b), k))
  {
    SwapKeepsBoard(b, EmptyIndex(b), k);
  }

  /** A legal move keeps a board a board and can be undone by the opposite move. */
  lemma LegalMoveReversible(b: seq<int>, c: seq<int>)
    requires LegalMove(b, c)
    ensures IsBoard(c) && LegalMove(c, b)
  {
    var e := EmptyIndex(b);
    var k :| k in ValidMoves(e) && c == Swap(b, e, k);
    SwapKeepsBoard(b, e, k);
    assert EmptyIndex(c) == k;
    AdjacentSymmetric(e, k);
    assert e in ValidMoves(k);
    assert Swap(c, k, e) == b;
  }

  /** A sequence of boards, each reached from the previous one by a legal move. */
  ghost predicate IsPath(ps: seq<seq<int>>) {
    && |ps| > 0
    && IsBoard(ps[0])
    && forall i :: 0 <= i < |ps| - 1 ==> LegalMove(ps[i], ps[i + 1])
  }

  function Reverse<T>(s: seq<T>): (r: seq<T>)
    ensures |r| == |s|
    ensures forall i :: 0 <= i < |s| ==> r[i] == s[|s| - 1 - i]
  {
    if s == [] then [] else Reverse(s[1..]) + [s[0]]
  }

  lemma {:induction false} PathBoards(ps: seq<seq<int>>, i: nat)
    requires IsPath(ps) && i < |ps|
    ensures IsBoard(ps[i])
  {
    if i > 0 {
      PathBoards(ps, i - 1);
      LegalMoveReversible(ps[i - 1], ps[i]);
    }
  }

  /** Walking a path backwards is again a path. */
  lemma ReversePath(ps: seq<seq<int>>)
    requires IsPath(ps)
    ensures IsPath(Reverse(ps))
  {
    var r := Reverse(ps);
    PathBoards(ps, |ps| - 1);
    forall i | 0 <= i < |r| - 1 ensures LegalMove(r[i], r[i + 1]) {
      var j := |ps| - 2 - i;
      assert r[i] == ps[j + 1] && r[i + 1] == ps[j];
      LegalMoveReversible(ps[j], ps[j + 1]);
    }
  }

  /** A board from which some sequence of legal moves reaches the solved board. */
  ghost predicate Solvable(b: seq<int>) {
    exists ps :: IsPath(ps) && ps[0] == b && ps[|ps| - 1] == SolvedBoard
  }

  /** Math.random() values driving a shuffle: each in [0, 1). */
  predicate ValidChoices(choices: seq<real>) {
    forall i :: 0 <= i < |choices| ==> 0.0 <= choices[i] < 1.0
  }

  /**
   * Math.floor(r * n) for a list of n valid moves. A move list always has two to four
   * entries, so the product is written with a constant factor per length.
   */
  function Pick(r: real, n: nat): (k: nat)
    requires 0.0 <= r < 1.0 && 2 <= n <= 4
    ensures k < n
  {
    var x := if n == 2 then 2.0 * r else if n == 3 then 3.0 * r else 4.0 * r;
    x.Floor
  }

  /** One shuffle step: the empty cell trades places with the randomly picked valid move. */
  function ShuffleStep(b: seq<int>, r: real): (c: seq<int>)
    requires IsBoard(b) && 0.0 <= r < 1.0
    ensures LegalMove(b, c) && IsBoard(c)
  {
    var e := EmptyIndex(b);
    var moves := ValidMoves(e);
    var k := moves[Pick(r, |moves|)];
    SwapKeepsBoard(b, e, k);
    Swap(b, e, k)
  }

  /** The board after one shuffle step per random choice, applied in order. */
  function Shuffled(b: seq<int>, choices: seq<real>): (c: seq<int>)
    requires IsBoard(b) && ValidChoices(choices)
    ensures IsBoard(c)
    decreases |choices|
  {
    if choices == [] then b
    else ShuffleStep(Shuffled(b, choices[..|choices| - 1]), choices[|choices| - 1])
  }

  /** The boards visited by a shuffle, one more than there are choices. */
  function ShuffleTrace(b: seq<int>, choices: seq<real>): (ps: seq<seq<int>>)
    requires IsBoard(b) && ValidChoices(choices)
    ensures |ps| == |choices| + 1
    decreases |choices|
  {
    if choices == [] then [b]
    else ShuffleTrace(b, choices[..|choices| - 1]) + [Shuffled(b, choices)]
  }

  /** The trace of a shuffle is a path of legal moves from the start to the shuffled board. */
  lemma {:induction false} ShuffleTraceIsPath(b: seq<int>, choices: seq<real>)
    requires IsBoard(b) && ValidChoices(choices)
    ensures IsPath(ShuffleTrace(b, choices))
    ensures ShuffleTrace(b, choices)[0] == b
    ensures ShuffleTrace(b, choices)[|choices|] == Shuffled(b, choices)
  {
    if choices != [] {
      var init := choices[..|choices| - 1];
      ShuffleTraceIsPath(b, init);
      var ps := ShuffleTrace(b, init);
      assert ShuffleTrace(b, choices) == ps + [Shuffled(b, choices)];
    }
  }

  /** The shuffle only makes legal moves from the solved board, so its result can be solved. */
  lemma ShuffledIsSolvable(choices: seq<real>)
    requires ValidChoices(choices)
    ensures Solvable(Shuffled(SolvedBoard, choices))
    ensures multiset(Shuffled(SolvedBoard, choices)) == multiset(SolvedBoard)
  {
    assert IsBoard(SolvedBoard);
    ShuffleTraceIsPath(SolvedBoard, choices);
    var ps := ShuffleTrace(SolvedBoard, choices);
    ReversePath(ps);
    var rs := Reverse(ps);
    assert rs[0] == Shuffled(SolvedBoard, choices);
    assert rs[|rs| - 1] == SolvedBoard;
    ShuffledPermutes(SolvedBoard, choices);
  }

  lemma {:induction false} ShuffledPermutes(b: seq<int>, choices: seq<real>)
    requires IsBoard(b) && ValidChoices(choices)
    ensures multiset(Shuffled(b, choices)) == multiset(b)
    decreases |choices|
  {
    if choices != [] {
      ShuffledPermutes(b, choices[..|choices| - 1]);
    }
  }

  lemma ShuffledSnoc(b: seq<int>, choices: seq<real>, i: nat)
    requires IsBoard(b) && ValidChoices(choices) && i < |choices|
    ensures Shuffled(b, choices[..i + 1]) == ShuffleStep(Shuffled(b, choices[..i]), choices[i])
  {
    assert choices[..i + 1][..i] == choices[..i];
  }

  /** One iteration of shufflePuzzle's loop on the array: swap the empty cell with the
      randomly picked valid move. */
  method ShuffleStepInPlace(a: array<int>, r: real)
    requires IsBoard(a[..]) && 0.0 <= r < 1.0
    modifies a
    ensures a[..] == ShuffleStep(old(a[..]), r)
  {
    var e := EmptyIndex(a[..]);
    var moves := ValidMoves(e);
    var k := moves[Pick(r, |moves|)];
    assert k in moves;
    assert a.Length == Size && 0 <= k < Size && k != e;
    var t := a[e];
    a[e] := a[k];
    a[k] := t;
    assert a[..] == Swap(old(a[..]), e, k);
  }

  /**
   * shufflePuzzle's loop, run in place on the copied array: one legal swap of the
   * empty cell per random choice.
   */
  method ShuffleInPlace(a: array<int>, choices: seq<real>)
    requires IsBoard(a[..]) && ValidChoices(choices)
    modifies a
    ensures a[..] == Shuffled(old(a[..]), choices)
  {
    ghost var start := a[..];
    var i := 0;
    while i < |choices|
      invariant 0 <= i <= |choices|
      invariant IsBoard(a[..])
      invariant a[..] == Shuffled(start, choices[..i])
    {
      ShuffleStepInPlace(a, choices[i]);
      ShuffledSnoc(start, choices, i);
      i := i + 1;
    }
    assert choices[..|choices|] == choices;
  }

  /** The win test: every cell idx holds (idx + 1) % 9. */
  predicate IsWin(b: seq<int>) {
    forall idx :: 0 <= idx < |b| ==> b[idx] == (idx + 1) % 9
  }

  /** On a nine-cell sequence the win test holds exactly for the solved board. */
  lemma WinIffSolved(b: seq<int>)
    requires |b| == Size
    ensures IsWin(b) <==> b == SolvedBoard
  {
    if IsWin(b) {
      assert forall idx :: 0 <= idx < Size ==> b[idx] == SolvedBoard[idx];
    }
  }

  // ---- formatTime ----

  function DigitChar(d: nat): (c: char)
    requires d < 10
    ensures '0' <= c <= '9'
  {
    "0123456789"[d]
  }

  /** The decimal rendering of a non-negative integer, as template interpolation prints it. */
  function NatToString(n: nat): (s: seq<char>)
    ensures |s| > 0 && AllDigits(s)
    ensures n < 10 <==> |s| == 1
    ensures n < 100 ==> |s| <= 2
  {
    if n < 10 then [DigitChar(n)] else NatToString(n / 10) + [DigitChar(n % 10)]
  }

  predicate AllDigits(s: seq<char>) {
    forall i :: 0 <= i < |s| ==> '0' <= s[i] <= '9'
  }

  /** The value of a string of decimal digits. */
  function DecimalValue(s: seq<char>): nat
    requires AllDigits(s)
  {
    if s == [] then 0
    else 10 * DecimalValue(s[..|s| - 1]) + (s[|s| - 1] - '0') as nat
  }

  lemma {:induction false} DecimalValueOfNatToString(n: nat)
    ensures DecimalValue(NatToString(n)) == n
  {
    if n >= 10 {
      DecimalValueOfNatToString(n / 10);
      var s := NatToString(n);
      assert s[..|s| - 1] == NatToString(n / 10);
    }
  }

  /** padStart(2, '0'): left-pad with '0' to at least two characters. */
  function PadStart2(s: seq<char>): (r: seq<char>)
    ensures |r| == if |s| >= 2 then |s| else 2
    ensures |s| < 2 ==> r[2 - |s|..] == s && forall i :: 0 <= i < 2 - |s| ==> r[i] == '0'
    ensures |s| >= 2 ==> r == s
    decreases 2 - |s|
  {
    if |s| >= 2 then s else PadStart2(['0'] + s)
  }

  /** formatTime: minutes, a colon, then the seconds within the minute on two digits. */
  function FormatTime(seconds: nat): (t: seq<char>)
    ensures |t| >= 4 && t[|t| - 3] == ':'
    ensures AllDigits(t[..|t| - 3]) && AllDigits(t[|t| - 2..])
  {
    var m, ss := NatToString(seconds / 60), PadStart2(NatToString(seconds % 60));
    assert AllDigits(ss);
    var t := m + [':'] + ss;
    assert t[..|t| - 3] == m && t[|t| - 2..] == ss;
    t
  }

  /** Reads back "m:ss": digits, one colon, exactly two digits of seconds below 60. */
  function ParseTime(t: seq<char>): Option<nat> {
    var i := IndexOf(t, ':');
    if i >= |t| then None else ParseParts(t[..i], t[i + 1..])
  }

  /** The minutes and seconds on either side of the colon. */
  function ParseParts(m: seq<char>, ss: seq<char>): Option<nat> {
    if |m| > 0 && AllDigits(m) && |ss| == 2 && AllDigits(ss) && DecimalValue(ss) < 60
    then Some(DecimalValue(m) * 60 + DecimalValue(ss))
    else None
  }

  /** formatTime loses nothing: its text reads back as the number of seconds it was given. */
  lemma FormatTimeRoundTrip(seconds: nat)
    ensures ParseTime(FormatTime(seconds)) == Some(seconds)
  {
    var m, s := NatToString(seconds / 60), NatToString(seconds % 60);
    var ss := PadStart2(s);
    DecimalValueOfNatToString(seconds / 60);
    DecimalValueOfNatToString(seconds % 60);
    PaddedValue(s);
    ParseJoined(m, ss);
  }

  /** A colon between a non-empty digit run and two digits below 60 parses as m * 60 + ss. */
  lemma ParseJoined(m: seq<char>, ss: seq<char>)
    requires |m| > 0 && AllDigits(m) && |ss| == 2 && AllDigits(ss) && DecimalValue(ss) < 60
    ensures ParseTime(m + [':'] + ss) == Some(DecimalValue(m) * 60 + DecimalValue(ss))
  {
    ParseAtColon(m, ss);
    PartsValue(m, ss);
  }

  lemma PartsValue(m: seq<char>, ss: seq<char>)
    requires |m| > 0 && AllDigits(m) && |ss| == 2 && AllDigits(ss) && DecimalValue(ss) < 60
    ensures ParseParts(m, ss) == Some(DecimalValue(m) * 60 + DecimalValue(ss))
  {
  }

  /** The first colon of m + ":" + ss is the one after m, so the parts are m and ss. */
  lemma ParseAtColon(m: seq<char>, ss: seq<char>)
    requires AllDigits(m)
    ensures ParseTime(m + [':'] + ss) == ParseParts(m, ss)
  {
    ColonSplit(m, ss);
  }

  lemma ColonSplit(m: seq<char>, ss: seq<char>)
    requires AllDigits(m)
    ensures var t := m + [':'] + ss; IndexOf(t, ':') == |m| && t[..|m|] == m && t[|m| + 1..] == ss
  {
    var t := m + [':'] + ss;
    assert t[|m|] == ':';
    assert forall j :: 0 <= j < |m| ==> t[j] == m[j];
  }

  lemma PaddedValue(s: seq<char>)
    requires 0 < |s| <= 2 && AllDigits(s)
    ensures AllDigits(PadStart2(s)) && DecimalValue(PadStart2(s)) == DecimalValue(s)
  {
    var r := PadStart2(s);
    if |s| == 1 {
      assert r == ['0'] + s;
      assert r[..1] == ['0'];
      assert s[..0] == [];
    }
  }
}
