/** The ids `addNode` hands out: `${type}-${++nodeIdCounter}-${Date.now()}`. */
module IdFormat {
  import opened Values

  predicate IsDigit(c: char) { '0' <= c <= '9' }

  predicate AllDigits(s: string)
  {
    forall i :: 0 <= i < |s| ==> IsDigit(s[i])
  }

  function DigitChar(d: nat): (c: char)
    requires d < 10
    ensures IsDigit(c) && c as int - '0' as int == d
  {
    ('0' as int + d) as char
  }

  /** The decimal rendering of a non-negative integer, as a template literal prints it. */
  function Decimal(n: nat): (s: string)
    ensures |s| >= 1 && AllDigits(s)
  {
    if n < 10 then [DigitChar(n)] else Decimal(n / 10) + [DigitChar(n % 10)]
  }

  /** Reads a string of decimal digits back as a number. */
  function DecimalValue(s: string): nat
    requires AllDigits(s)
  {
    if s == [] then 0
    else DecimalValue(s[..|s| - 1]) * 10 + (s[|s| - 1] as int - '0' as int)
  }

  lemma {:induction false} DecimalRoundTrip(n: nat)
    ensures DecimalValue(Decimal(n)) == n
  {
    if n >= 10 {
      var s := Decimal(n);
      assert s[..|s| - 1] == Decimal(n / 10);
      DecimalRoundTrip(n / 10);
    }
  }

  /** Two different numbers never print the same. */
  lemma DecimalInjective(m: nat, n: nat)
    requires Decimal(m) == Decimal(n)
    ensures m == n
  {
    DecimalRoundTrip(m);
    DecimalRoundTrip(n);
  }

  /** The id `addNode` builds from the node type, the bumped counter and the clock. */
  function NewNodeId(kind: string, counter: nat, now: nat): string
  {
    kind + "-" + Decimal(counter) + "-" + Decimal(now)
  }

  /** Splits a string at its last '-' into the part before and the part after. */
  function SplitLast(s: string): (r: Option<(string, string)>)
    ensures r.Some? ==> s == r.value.0 + "-" + r.value.1 && '-' !in r.value.1
    ensures r.None? ==> '-' !in s
  {
    if s == [] then None
    else if s[|s| - 1] == '-' then
      assert s == s[..|s| - 1] + "-" + "";
      Some((s[..|s| - 1], ""))
    else
      match SplitLast(s[..|s| - 1])
      case None => None
      case Some((head, tail)) =>
        assert s == s[..|s| - 1] + [s[|s| - 1]];
        Some((head, tail + [s[|s| - 1]]))
  }

  lemma {:induction false} SplitLastAt(head: string, tail: string)
    requires '-' !in tail
    ensures SplitLast(head + "-" + tail) == Some((head, tail))
  {
    var s := head + "-" + tail;
    if tail == [] {
      assert s[..|s| - 1] == head;
    } else {
      var shorter := tail[..|tail| - 1];
      assert s[..|s| - 1] == head + "-" + shorter;
      assert '-' !in shorter by {
        forall i | 0 <= i < |shorter| ensures shorter[i] != '-' {
          assert shorter[i] == tail[i];
        }
      }
      SplitLastAt(head, shorter);
      assert shorter + [s[|s| - 1]] == tail;
    }
  }

  /** Recovers the counter embedded in an id of the form `<type>-<counter>-<time>`:
      the counter is the segment between the last two dashes. */
  function CounterOf(id: string): Option<nat>
  {
    match SplitLast(id)
    case None => None
    case Some((rest, _)) =>
      match SplitLast(rest)
      case None => None
      case Some((_, c)) => if c != "" && AllDigits(c) then Some(DecimalValue(c)) else None
  }

  lemma DigitsHaveNoDash(s: string)
    requires AllDigits(s)
    ensures '-' !in s
  {
  }

  /** Whatever the type name (it may itself contain dashes and digits) and
      whatever the clock says, the counter can be read back from the id. */
  lemma CounterOfNewNodeId(kind: string, counter: nat, now: nat)
    ensures CounterOf(NewNodeId(kind, counter, now)) == Some(counter)
  {
    var c, t := Decimal(counter), Decimal(now);
    DigitsHaveNoDash(c);
    DigitsHaveNoDash(t);
    assert NewNodeId(kind, counter, now) == (kind + "-" + c) + "-" + t;
    SplitLastAt(kind + "-" + c, t);
    SplitLastAt(kind, c);
    DecimalRoundTrip(counter);
  }

  /** Ids built with different counters differ, whatever the types and clock readings. */
  lemma NewNodeIdsDiffer(kind1: string, counter1: nat, now1: nat, kind2: string, counter2: nat, now2: nat)
    requires counter1 != counter2
    ensures NewNodeId(kind1, counter1, now1) != NewNodeId(kind2, counter2, now2)
  {
    CounterOfNewNodeId(kind1, counter1, now1);
    CounterOfNewNodeId(kind2, counter2, now2);
  }
}
