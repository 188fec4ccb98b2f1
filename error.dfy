/**
 * Domain errors and validation-error aggregation (error.go). `Errors`
 * passes the collected text to `fmt.Errorf` as its FORMAT string with no
 * operands, so the text is rewritten by Go's formatting rules; `Format`
 * models those rules for a format string with no operands.
 */
module CqrsError {
  import opened Wrappers

  /** `DomainError`: an error that is its own message. */
  datatype DomainError = DomainError(text: string)
  {
    /** `Error()`: the underlying string. */
    function Error(): string
    {
      text
    }
  }

  /** `DomainError.Error` gives back exactly the string the error was made from. */
  lemma ErrorIsText(s: string)
    ensures DomainError(s).Error() == s
    ensures forall e: DomainError :: e.Error() == s <==> e == DomainError(s)
  {
  }

  // ---------------------------------------------------------------- fmt with no operands

  /** A number read by fmt's `parsenum`: its value, whether digits were present, where reading stopped. */
  datatype Num = Num(value: int, present: bool, next: nat)

  /** fmt's `tooLarge`: a width or precision beyond a million is treated as garbage. */
  predicate TooLarge(x: int)
  {
    x > 1000000 || x < -1000000
  }

  /** The digits of `s` from `i` (before `end`), accumulated onto `num`; an overflow consumes the rest of the string. */
  function Digits(s: string, i: nat, end: nat, num: int, isNum: bool): (n: Num)
    requires i <= end <= |s|
    ensures i <= n.next <= end
    decreases end - i
  {
    if i < end && '0' <= s[i] <= '9' then
      if TooLarge(num) then Num(0, false, end)
      else Digits(s, i + 1, end, num * 10 + (s[i] as int - '0' as int), true)
    else Num(num, isNum, i)
  }

  /** fmt's `parsenum(s, start, end)`. */
  function ParseNum(s: string, start: nat, end: nat): (n: Num)
    requires start <= end <= |s|
    ensures start <= n.next <= end
  {
    if start >= end then Num(0, false, end) else Digits(s, start, end, 0, false)
  }

  /** The first index at or after `i` where `s` holds `c`, or `|s|`. */
  function Find(s: string, i: nat, c: char): (j: nat)
    requires i <= |s|
    ensures i <= j <= |s| && (j < |s| ==> s[j] == c)
    ensures forall t :: i <= t < j ==> s[t] != c
    decreases |s| - i
  {
    if i == |s| || s[i] == c then i else Find(s, i + 1, c)
  }

  /** `Find` is the only position with its two properties. */
  lemma FindIs(s: string, i: nat, c: char, j: nat)
    requires i <= j <= |s| && (j < |s| ==> s[j] == c)
    requires forall t :: i <= t < j ==> s[t] != c
    ensures Find(s, i, c) == j
  {
  }

  /** fmt's `parseArgNumber` on `f` (a suffix starting at `[`): how many characters it spans and whether it is well formed. */
  function ParseArgNumber(f: string): (r: (nat, bool))
    ensures 1 <= r.0 <= |f| || (|f| == 0 && r.0 == 1)
  {
    if |f| < 3 then (1, false)
    else
      var k := Find(f, 1, ']');
      if k == |f| then (1, false)
      else
        var n := ParseNum(f, 1, k);
        (k + 1, n.present && n.next == k)
  }

  /** An explicit argument index `[n]` at `i`: where reading resumes, whether one was read, whether one was present at all. */
  datatype Index = Index(next: nat, found: bool, present: bool)

  /**
   * fmt's `argNumber` with no operands: no index is ever in range, so an
   * index marks the directive bad.
   */
  function ArgNumber(s: string, i: nat): (x: Index)
    requires i <= |s|
    ensures i <= x.next <= |s|
    ensures x.present <==> i < |s| && s[i] == '['
  {
    if |s| <= i || s[i] != '[' then Index(i, false, false)
    else
      var r := ParseArgNumber(s[i..]);
      Index(i + r.0, r.1, true)
  }

  /** The first index at or after `i` that is not one of fmt's flags `#0+- `. */
  function SkipFlags(s: string, i: nat): (k: nat)
    requires i <= |s|
    ensures i <= k <= |s|
    decreases |s| - i
  {
    if i < |s| && s[i] in {'#', '0', '+', '-', ' '} then SkipFlags(s, i + 1) else i
  }

  /** The text one directive produces and where the scan resumes. */
  datatype Piece = Piece(out: string, next: nat)

  /**
   * A directive part way through: text written so far (BADWIDTH, BADPREC),
   * where reading resumes, whether an argument index was just read, and
   * whether the directive has lost its argument index.
   */
  datatype Partial = Partial(out: string, next: nat, afterIndex: bool, bad: bool)

  /** The width after the flags and an optional index `a`: `*` has no operand (BADWIDTH); digits after an index spoil it. */
  function Width(s: string, a: Index): (w: Partial)
    requires a.next <= |s|
    ensures a.next <= w.next <= |s|
  {
    if a.next < |s| && s[a.next] == '*' then Partial("%!(BADWIDTH)", a.next + 1, false, a.present)
    else
      var n := ParseNum(s, a.next, |s|);
      Partial("", n.next, a.found, a.present || (a.found && n.present))
  }

  /** The precision: a `.` that is not the last character, an optional index, then `*` (BADPREC) or digits. */
  function Precision(s: string, w: Partial): (q: Partial)
    requires w.next <= |s|
    ensures w.next <= q.next <= |s|
  {
    var j := w.next;
    if j + 1 < |s| && s[j] == '.' then
      var b := ArgNumber(s, j + 1);
      var bad := w.bad || w.afterIndex || b.present;
      if b.next < |s| && s[b.next] == '*' then Partial(w.out + "%!(BADPREC)", b.next + 1, false, bad)
      else Partial(w.out, ParseNum(s, b.next, |s|).next, b.found, bad)
    else w
  }

  /**
   * One directive whose `%` sits just before `i`: flags, an optional
   * index, a width, a precision, another optional index, then the verb.
   * `%%` prints `%`; a lost index prints BADINDEX; any other verb has no
   * operand: MISSING; a directive cut off by the end: NOVERB.
   */
  function Directive(s: string, i: nat): (p: Piece)
    requires i <= |s|
    ensures i <= p.next <= |s|
  {
    var q := Precision(s, Width(s, ArgNumber(s, SkipFlags(s, i))));
    var c := if q.afterIndex then Index(q.next, true, false) else ArgNumber(s, q.next);
    var k := c.next;
    var bad := q.bad || c.present;
    if k >= |s| then Piece(q.out + "%!(NOVERB)", |s|)
    else if s[k] == '%' then Piece(q.out + "%", k + 1)
    else if bad then Piece(q.out + "%!" + [s[k]] + "(BADINDEX)", k + 1)
    else Piece(q.out + "%!" + [s[k]] + "(MISSING)", k + 1)
  }

  /**
   * The output of `Sprintf(s)` with no operands, from position `i` on: the
   * text up to the next `%` is copied, then that directive is printed.
   */
  function Scan(s: string, i: nat): string
    requires i <= |s|
    decreases |s| - i
  {
    var j := Find(s, i, '%');
    if j == |s| then s[i..]
    else
      var p := Directive(s, j + 1);
      s[i..j] + p.out + Scan(s, p.next)
  }

  /** The text of `fmt.Errorf(s)`. */
  function Format(s: string): string
  {
    Scan(s, 0)
  }

  /** `fmt.Errorf` is the identity on text without `%`. */
  lemma FormatPlain(s: string)
    requires '%' !in s
    ensures Format(s) == s
  {
    assert forall k :: 0 <= k < |s| ==> s[k] != '%';
    FindIs(s, 0, '%', |s|);
    assert s[0..] == s;
  }

  /** A directive cut off by the end of the text. */
  lemma DirectiveAtEnd(s: string)
    ensures Directive(s, |s|) == Piece("%!(NOVERB)", |s|)
  {
    assert SkipFlags(s, |s|) == |s|;
    assert ArgNumber(s, |s|) == Index(|s|, false, false);
    assert Width(s, Index(|s|, false, false)) == Partial("", |s|, false, false);
  }

  /** A directive that is a bare verb: `%` itself, or a letter, which has no operand. */
  lemma DirectiveBareVerb(s: string, i: nat)
    requires i < |s| && (s[i] == '%' || 'a' <= s[i] <= 'z' || 'A' <= s[i] <= 'Z')
    ensures Directive(s, i) == if s[i] == '%' then Piece("%", i + 1) else Piece("%!" + [s[i]] + "(MISSING)", i + 1)
  {
    assert SkipFlags(s, i) == i;
    assert ArgNumber(s, i) == Index(i, false, false);
    assert ParseNum(s, i, |s|) == Num(0, false, i);
    assert Width(s, Index(i, false, false)) == Partial("", i, false, false);
  }

  /** A `%` that ends the text is rewritten: `fmt.Errorf("50%")` says `50%!(NOVERB)`. */
  lemma FormatTrailingPercent(s: string)
    requires '%' !in s
    ensures Format(s + "%") == s + "%!(NOVERB)"
  {
    var t := s + "%";
    assert forall k :: 0 <= k < |s| ==> t[k] == s[k] && s[k] != '%';
    FindIs(t, 0, '%', |s|);
    assert t[0..|s|] == s;
    DirectiveAtEnd(t);
    assert Find(t, |t|, '%') == |t| && t[|t|..] == "";
    assert Scan(t, |t|) == "";
    assert Scan(t, 0) == s + "%!(NOVERB)" + Scan(t, |t|);
  }

  /** `%%` prints one `%`, and a `%` before a letter reads it as a verb with no operand: `a%d` says `a%!d(MISSING)`. */
  lemma FormatBareVerb(s: string, c: char)
    requires '%' !in s && (c == '%' || 'a' <= c <= 'z' || 'A' <= c <= 'Z')
    ensures Format(s + ['%', c]) == s + (if c == '%' then "%" else "%!" + [c] + "(MISSING)")
  {
    var t := s + ['%', c];
    assert forall k :: 0 <= k < |s| ==> t[k] == s[k] && s[k] != '%';
    FindIs(t, 0, '%', |s|);
    assert t[0..|s|] == s;
    DirectiveBareVerb(t, |s| + 1);
    var out := if c == '%' then "%" else "%!" + [c] + "(MISSING)";
    assert Directive(t, |s| + 1) == Piece(out, |t|);
    assert Find(t, |t|, '%') == |t| && t[|t|..] == "";
    assert Scan(t, |t|) == "";
    assert Scan(t, 0) == s + out + Scan(t, |t|);
  }

  // ---------------------------------------------------------------- Errors

  /** The text `Errors` collects from the validators' replies: each failing message followed by a newline, in order. */
  function Accumulated(replies: seq<Option<string>>): string
  {
    if replies == [] then ""
    else
      var r := replies[|replies| - 1];
      Accumulated(replies[..|replies| - 1]) + (if r.Some? then r.value + "\n" else "")
  }

  /** The number of failing validators. */
  function Failures(replies: seq<Option<string>>): nat
  {
    if replies == [] then 0
    else Failures(replies[..|replies| - 1]) + (if replies[|replies| - 1].Some? then 1 else 0)
  }

  /** What `Errors` returns: nil when no text was collected, otherwise the formatted text. */
  function ErrorsResult(replies: seq<Option<string>>): Option<string>
  {
    var str := Accumulated(replies);
    if str != "" then Some(Format(str)) else None
  }

  /** No text is collected exactly when every validator passed; every failure adds at least its newline. */
  lemma {:induction false} AccumulatedEmpty(replies: seq<Option<string>>)
    ensures Accumulated(replies) == "" <==> forall i :: 0 <= i < |replies| ==> replies[i].None?
    ensures |Accumulated(replies)| >= Failures(replies)
  {
    if replies != [] {
      var init := replies[..|replies| - 1];
      AccumulatedEmpty(init);
      assert forall i :: 0 <= i < |init| ==> init[i] == replies[i];
    }
  }

  /** `Errors` returns nil exactly when every validator passed, and in particular with no validators. */
  lemma ErrorsNil(replies: seq<Option<string>>)
    ensures ErrorsResult(replies) == None <==> forall i :: 0 <= i < |replies| ==> replies[i].None?
    ensures ErrorsResult([]) == None
  {
    AccumulatedEmpty(replies);
  }

  /** The messages of the failures, in order, with no `%`, give collected text with no `%`. */
  lemma {:induction false} AccumulatedPlain(replies: seq<Option<string>>)
    requires forall i :: 0 <= i < |replies| && replies[i].Some? ==> '%' !in replies[i].value
    ensures '%' !in Accumulated(replies)
  {
    if replies != [] {
      var init := replies[..|replies| - 1];
      assert forall i :: 0 <= i < |init| ==> init[i] == replies[i];
      AccumulatedPlain(init);
    }
  }

  /** When no failing message contains `%`, the error text is the collected text itself. */
  lemma ErrorsText(replies: seq<Option<string>>)
    requires forall i :: 0 <= i < |replies| && replies[i].Some? ==> '%' !in replies[i].value
    requires exists i :: 0 <= i < |replies| && replies[i].Some?
    ensures ErrorsResult(replies) == Some(Accumulated(replies))
  {
    AccumulatedEmpty(replies);
    AccumulatedPlain(replies);
    FormatPlain(Accumulated(replies));
  }

  /**
   * `Errors(vv...)`: calls every validator's `Validate` once, left to right,
   * even after a failure (`calls` is the log of the indices called, and
   * `replies[i]` is validator i's answer), collecting each failing message
   * with a newline.
   */
  method Errors(replies: seq<Option<string>>) returns (err: Option<string>, calls: seq<nat>)
    ensures calls == seq(|replies|, i => i)
    ensures err == ErrorsResult(replies)
  {
    var str := "";
    calls := [];
    var i := 0;
    while i < |replies|
      invariant 0 <= i <= |replies|
      invariant str == Accumulated(replies[..i])
      invariant calls == seq(i, t => t)
    {
      assert replies[..i + 1][..i] == replies[..i];
      calls := calls + [i];
      var e := replies[i];
      if e.Some? {
        str := str + e.value + "\n";
      }
      i := i + 1;
    }
    assert replies[..i] == replies;
    if str != "" {
      return Some(Format(str)), calls;
    }
    err := None;
  }
}
