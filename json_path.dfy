/**
 * `jsonPathTo` (src/jsonPathTo.ts): a character scanner that computes the
 * stack of containers (objects with their current key, arrays with their
 * index) enclosing an offset of a JSON text.
 */
module JsonPath {
  import opened Base

  datatype ColType = ObjectCol | ArrayCol

  /** A container on the stack: its kind, the array index, the object key. */
  datatype Frame = Frame(colType: ColType, index: Option<int>, key: Option<string>)

  /** The scanner's variables between two iterations. */
  datatype ScanState = ScanState(pos: int, stack: seq<Frame>, isInKey: bool)

  /**
   * What `findEndQuote(text, i)` returns: the first `"` at or after `i`, or
   * `i` itself when `i` is already past the end. Whether the quote is
   * preceded by backslashes plays no part: the backtracking in the source
   * starts on the quote itself, so it always stops at once.
   */
  function EndQuote(text: string, i: int): (r: int)
    requires 0 <= i
    decreases |text| - i
    ensures r >= i
    ensures i <= |text| ==> r <= |text|
    ensures r < |text| ==> text[r] == '"'
    ensures forall j :: i <= j < r && j < |text| ==> text[j] != '"'
  {
    if i >= |text| then i
    else if text[i] == '"' then i
    else EndQuote(text, i + 1)
  }

  /**
   * The inner loop of `findEndQuote`: moves back over the backslashes that
   * end at `bt`.
   */
  method Backtrack(text: string, bt0: int) returns (bt: int)
    requires 0 <= bt0 < |text|
    ensures -1 <= bt <= bt0
    ensures bt < 0 || text[bt] != '\\'
    ensures forall j :: bt < j <= bt0 ==> text[j] == '\\'
  {
    bt := bt0;
    while 0 <= bt && text[bt] == '\\'
      invariant -1 <= bt <= bt0
      invariant forall j :: bt < j <= bt0 ==> text[j] == '\\'
    {
      bt := bt - 1;
    }
  }

  /** `findEndQuote(text, i)`. */
  method FindEndQuote(text: string, i0: int) returns (i: int)
    requires 0 <= i0
    ensures i == EndQuote(text, i0)
  {
    i := i0;
    while i < |text|
      invariant i0 <= i
      invariant EndQuote(text, i0) == EndQuote(text, i)
      decreases |text| - i
    {
      if text[i] == '"' {
        var bt := Backtrack(text, i);
        if (i - bt) % 2 == 0 {
          break;
        }
      }
      i := i + 1;
    }
  }

  /** What `readString(text, pos)` returns: the text up to the end quote, and the position after it. */
  function StringAt(text: string, pos: int): (r: (string, int))
    requires 0 <= pos
    ensures r.1 >= pos + 2
  {
    var i := EndQuote(text, pos + 1);
    (Substring(text, pos + 1, i), i + 1)
  }

  /** The string read at an opening quote is exactly the characters up to the next quote, which it skips. */
  lemma {:induction false} StringAtContents(text: string, pos: int)
    requires 0 <= pos < |text|
    ensures var (s, newPos) := StringAt(text, pos);
      pos + 1 + |s| + 1 == newPos && s == text[pos + 1..newPos - 1] &&
      (forall j :: 0 <= j < |s| ==> s[j] != '"') &&
      (newPos - 1 < |text| ==> text[newPos - 1] == '"')
  {
  }

  /** `readString(text, pos)`. */
  method ReadString(text: string, pos: int) returns (s: string, newPos: int)
    requires 0 <= pos
    ensures (s, newPos) == StringAt(text, pos)
  {
    var i := pos + 1;
    i := FindEndQuote(text, i);
    s := Substring(text, pos + 1, i);
    newPos := i + 1;
  }

  /** The top frame after a string is read: it becomes the key of an object frame waiting for one. */
  function AfterString(st: ScanState, s: string, newPos: int): ScanState {
    if |st.stack| > 0 && st.stack[|st.stack| - 1].colType == ObjectCol && st.isInKey then
      ScanState(newPos, st.stack[..|st.stack| - 1] + [st.stack[|st.stack| - 1].(key := Some(s))], false)
    else ScanState(newPos, st.stack, st.isInKey)
  }

  /** After a `,`: an object frame waits for a key again; an array frame's index grows only when truthy. */
  function AfterComma(st: ScanState): ScanState {
    if |st.stack| > 0 then
      var frame := st.stack[|st.stack| - 1];
      if frame.colType == ObjectCol then ScanState(st.pos + 1, st.stack, true)
      else if frame.index.Some? && frame.index.value != 0 then
        ScanState(st.pos + 1, st.stack[..|st.stack| - 1] + [frame.(index := Some(frame.index.value + 1))], st.isInKey)
      else ScanState(st.pos + 1, st.stack, st.isInKey)
    else ScanState(st.pos + 1, st.stack, st.isInKey)
  }

  /** One iteration of the `while` loop: dispatch on `text[pos]` (`undefined` past the end). */
  function Step(text: string, st: ScanState): (r: ScanState)
    requires 0 <= st.pos
    ensures r.pos > st.pos
  {
    if st.pos >= |text| then st.(pos := st.pos + 1)
    else
      match text[st.pos]
      case '"' =>
        var (s, newPos) := StringAt(text, st.pos);
        AfterString(st, s, newPos)
      case '{' => ScanState(st.pos + 1, st.stack + [Frame(ObjectCol, None, None)], true)
      case '[' => ScanState(st.pos + 1, st.stack + [Frame(ArrayCol, Some(0), None)], st.isInKey)
      case '}' =>
        ScanState(st.pos + 1, if |st.stack| > 0 then st.stack[..|st.stack| - 1] else st.stack, st.isInKey)
      case ']' =>
        ScanState(st.pos + 1, if |st.stack| > 0 then st.stack[..|st.stack| - 1] else st.stack, st.isInKey)
      case ',' => AfterComma(st)
      case _ => st.(pos := st.pos + 1)
  }

  /** The loop run from a state until `pos` reaches `offset`. */
  function Run(text: string, offset: int, st: ScanState): ScanState
    requires 0 <= st.pos
    decreases offset - st.pos
  {
    if st.pos < offset then Run(text, offset, Step(text, st)) else st
  }

  /** `jsonPathTo(text, offset)`: the stack once every position before `offset` is scanned. */
  function PathTo(text: string, offset: int): seq<Frame> {
    Run(text, offset, ScanState(0, [], false)).stack
  }

  /** `jsonPathTo(text, offset)`, the loop as written. */
  method JsonPathTo(text: string, offset: int) returns (stack: seq<Frame>)
    ensures stack == PathTo(text, offset)
  {
    var pos := 0;
    stack := [];
    var isInKey := false;
    while pos < offset
      invariant 0 <= pos
      invariant Run(text, offset, ScanState(pos, stack, isInKey)) == Run(text, offset, ScanState(0, [], false))
      decreases offset - pos
    {
      ghost var before := ScanState(pos, stack, isInKey);
      var startPos := pos;
      var c: Option<char> := if pos < |text| then Some(text[pos]) else None;
      if c == Some('"') {
        var s, newPos := ReadString(text, pos);
        if |stack| > 0 {
          var frame := stack[|stack| - 1];
          if frame.colType == ObjectCol && isInKey {
            stack := stack[..|stack| - 1] + [frame.(key := Some(s))];
            isInKey := false;
          }
        }
        pos := newPos;
      } else if c == Some('{') {
        stack := stack + [Frame(ObjectCol, None, None)];
        isInKey := true;
      } else if c == Some('[') {
        stack := stack + [Frame(ArrayCol, Some(0), None)];
      } else if c == Some('}') || c == Some(']') {
        if |stack| > 0 {
          stack := stack[..|stack| - 1];
        }
      } else if c == Some(',') {
        if |stack| > 0 {
          var frame := stack[|stack| - 1];
          if frame.colType == ObjectCol {
            isInKey := true;
          } else if frame.index.Some? && frame.index.value != 0 {
            stack := stack[..|stack| - 1] + [frame.(index := Some(frame.index.value + 1))];
          }
        }
      }
      if pos == startPos {
        pos := pos + 1;
      }
      assert ScanState(pos, stack, isInKey) == Step(text, before);
    }
  }

  // ---------------------------------------------------------------------------
  // Properties of the scan
  // ---------------------------------------------------------------------------

  /** Array frames carry index 0 and object frames no index. */
  predicate FramesShaped(stack: seq<Frame>) {
    forall j :: 0 <= j < |stack| ==>
      (stack[j].colType == ArrayCol ==> stack[j].index == Some(0)) &&
      (stack[j].colType == ObjectCol ==> stack[j].index.None?)
  }

  lemma {:induction false} StepShaped(text: string, st: ScanState)
    requires 0 <= st.pos && FramesShaped(st.stack)
    ensures FramesShaped(Step(text, st).stack)
  {
    var r := Step(text, st);
    if st.pos < |text| && text[st.pos] == '"' {
      var (s, newPos) := StringAt(text, st.pos);
      if |st.stack| > 0 && st.stack[|st.stack| - 1].colType == ObjectCol && st.isInKey {
        assert forall j :: 0 <= j < |st.stack| - 1 ==> r.stack[j] == st.stack[j];
      }
    } else if st.pos < |text| && (text[st.pos] == '}' || text[st.pos] == ']') && |st.stack| > 0 {
      assert forall j :: 0 <= j < |r.stack| ==> r.stack[j] == st.stack[j];
    } else if st.pos < |text| && (text[st.pos] == '{' || text[st.pos] == '[') {
      assert forall j :: 0 <= j < |st.stack| ==> r.stack[j] == st.stack[j];
    }
  }

  /**
   * Every array frame of the result still has index 0: `,` never advances
   * an index, because the index starts at 0 and `if (frame.index)` is
   * falsy there.
   */
  lemma {:induction false} ArrayIndexNeverAdvances(text: string, offset: int, st: ScanState)
    requires 0 <= st.pos && FramesShaped(st.stack)
    decreases offset - st.pos
    ensures FramesShaped(Run(text, offset, st).stack)
  {
    if st.pos < offset {
      StepShaped(text, st);
      ArrayIndexNeverAdvances(text, offset, Step(text, st));
    }
  }

  /** So the path at any offset has only index 0 for arrays. */
  lemma {:induction false} PathIndicesZero(text: string, offset: int)
    ensures FramesShaped(PathTo(text, offset))
  {
    ArrayIndexNeverAdvances(text, offset, ScanState(0, [], false));
  }

  /** The number of `{` and `[` characters at positions `a` up to `b`. */
  function Openers(text: string, a: int, b: int): nat
    decreases b - a
  {
    if a >= b then 0
    else (if 0 <= a < |text| && (text[a] == '{' || text[a] == '[') then 1 else 0) + Openers(text, a + 1, b)
  }

  lemma {:induction false} OpenersMonotone(text: string, a: int, a': int, b: int)
    requires a <= a'
    decreases a' - a
    ensures Openers(text, a', b) <= Openers(text, a, b)
  {
    if a < a' {
      OpenersMonotone(text, a + 1, a', b);
    }
  }

  /**
   * The stack never holds more frames than there are opening brackets
   * before the offset: only `{` and `[` push.
   */
  lemma {:induction false} DepthBounded(text: string, offset: int, st: ScanState)
    requires 0 <= st.pos
    decreases offset - st.pos
    ensures |Run(text, offset, st).stack| <= |st.stack| + Openers(text, st.pos, offset)
  {
    if st.pos < offset {
      var next := Step(text, st);
      DepthBounded(text, offset, next);
      OpenersMonotone(text, st.pos + 1, next.pos, offset);
      if st.pos < |text| && (text[st.pos] == '{' || text[st.pos] == '[') {
        assert |next.stack| == |st.stack| + 1;
      } else {
        assert |next.stack| <= |st.stack|;
      }
    }
  }

  /** Nothing before the first character: an offset of zero or less gives an empty path. */
  lemma {:induction false} PathBeforeStart(text: string, offset: int)
    requires offset <= 0
    ensures PathTo(text, offset) == []
  {
  }

  /** A key read in an object at the top of the stack: `{"k"` leaves one object frame keyed `k`. */
  lemma {:induction false} KeyOfOpenObject(k: string)
    requires forall j :: 0 <= j < |k| ==> k[j] != '"'
    ensures var text := "{\"" + k + "\"";
      PathTo(text, |text|) == [Frame(ObjectCol, None, Some(k))]
  {
    var text := "{\"" + k + "\"";
    var s0 := ScanState(0, [], false);
    var s1 := Step(text, s0);
    assert text[0] == '{';
    assert s1 == ScanState(1, [Frame(ObjectCol, None, None)], true);
    assert text[1] == '"';
    assert EndQuote(text, 2) == |text| - 1 by {
      assert text[|text| - 1] == '"';
      assert forall j :: 2 <= j < |text| - 1 ==> text[j] == k[j - 2];
      EndQuoteFirst(text, 2, |text| - 1);
    }
    assert text[2..|text| - 1] == k;
    assert StringAt(text, 1) == (k, |text|);
    var s2 := Step(text, s1);
    assert s2 == ScanState(|text|, [Frame(ObjectCol, None, Some(k))], false);
    assert Run(text, |text|, s0) == Run(text, |text|, s1) == Run(text, |text|, s2) == s2;
  }

  /** The end quote is the first quote from `i`. */
  lemma {:induction false} EndQuoteFirst(text: string, i: int, q: int)
    requires 0 <= i <= q < |text| && text[q] == '"'
    requires forall j :: i <= j < q ==> text[j] != '"'
    decreases q - i
    ensures EndQuote(text, i) == q
  {
    if i < q {
      EndQuoteFirst(text, i + 1, q);
    }
  }
}
