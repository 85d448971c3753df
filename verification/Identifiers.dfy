/** Group IDs, snapshot IDs, job names and snapshot paths, as the driver prints them. */
module Identifiers {
  const SECOND: nat := 1_000_000_000

  /** Seconds since the epoch of a clock reading in nanoseconds. */
  function Unix(now: nat): nat {
    now / SECOND
  }

  /** Whole seconds, rounded down. */
  lemma UnixRoundsDown(now: nat)
    ensures 1_000_000_000 * Unix(now) <= now < 1_000_000_000 * (Unix(now) + 1)
  {
  }

  function Digit(d: nat): char
    requires d < 10
  {
    '0' + d as char
  }

  /** The decimal numeral that the verb %d prints for a non-negative integer. */
  function Decimal(n: nat): string {
    if n < 10 then [Digit(n)] else Decimal(n / 10) + [Digit(n % 10)]
  }

  /** The one format both kinds of ID use: a prefix, a dash and a decimal time. */
  function Stamped(prefix: string, time: nat): string {
    prefix + "-" + Decimal(time)
  }

  function GroupId(name: string, time: nat): string {
    Stamped(name, time)
  }

  function SnapshotId(name: string, time: nat, later: nat): string {
    Stamped(GroupId(name, time), later)
  }

  /** s is an ID of a snapshot of group g. */
  ghost predicate SnapshotOf(g: string, s: string) {
    exists t: nat :: s == Stamped(g, t)
  }

  function SaveJobName(snapshotId: string): string {
    "etcd-snapshot-save-" + snapshotId
  }

  function DeleteJobName(snapshotId: string): string {
    "etcd-snapshot-delete-" + snapshotId
  }

  function SnapshotPath(snapshotId: string): string {
    "/snapshots/" + snapshotId + ".db"
  }

  lemma {:induction false} DecimalHasNoDash(n: nat)
    ensures |Decimal(n)| > 0
    ensures '-' !in Decimal(n)
    decreases n
  {
    if n >= 10 {
      DecimalHasNoDash(n / 10);
    }
  }

  lemma {:induction false} DecimalInjective(a: nat, b: nat)
    requires Decimal(a) == Decimal(b)
    ensures a == b
    decreases a
  {
    var x := Decimal(a);
    DecimalHasNoDash(a / 10);
    DecimalHasNoDash(b / 10);
    assert a % 10 == b % 10 by {
      assert x[|x| - 1] == Digit(a % 10) == Digit(b % 10);
    }
    if a >= 10 {
      assert x[..|x| - 1] == Decimal(a / 10) == Decimal(b / 10);
      DecimalInjective(a / 10, b / 10);
    }
  }

  /* ----- reading a numeral ----- */

  predicate IsDigit(c: char) {
    '0' <= c <= '9'
  }

  /** What digits add to the value of those before them, read from left to right. */
  function ValueAfter(before: int, s: string): int
    decreases |s|
  {
    if s == [] then before else ValueAfter(10 * before + (s[0] as int - '0' as int), s[1..])
  }

  function Value(s: string): int {
    ValueAfter(0, s)
  }

  /** Digits only, and no leading zero but for zero itself. */
  ghost predicate IsNumeral(s: string) {
    && s != [] && (forall k :: 0 <= k < |s| ==> IsDigit(s[k]))
    && (s[0] == '0' ==> s == "0")
  }

  lemma {:induction false} ValueOfLast(before: int, s: string, c: char)
    ensures ValueAfter(before, s + [c]) == 10 * ValueAfter(before, s) + (c as int - '0' as int)
    decreases |s|
  {
    if s == [] {
      assert (s + [c])[1..] == [];
    } else {
      assert (s + [c])[1..] == s[1..] + [c];
      ValueOfLast(10 * before + (s[0] as int - '0' as int), s[1..], c);
    }
  }

  /** The numeral that is printed reads back as the number. */
  lemma {:induction false} DecimalReadsBack(n: nat)
    ensures Value(Decimal(n)) == n
    decreases n
  {
    if n < 10 {
      assert Decimal(n) == [] + [Digit(n)];
      ValueOfLast(0, [], Digit(n));
    } else {
      DecimalReadsBack(n / 10);
      ValueOfLast(0, Decimal(n / 10), Digit(n % 10));
    }
  }

  lemma {:induction false} DecimalIsNumeral(n: nat)
    ensures IsNumeral(Decimal(n)) && (Decimal(n) == "0" <==> n == 0)
    decreases n
  {
    if n >= 10 {
      DecimalIsNumeral(n / 10);
      assert Decimal(n)[0] == Decimal(n / 10)[0];
    }
  }

  /** Every number has this one numeral: one that reads as n is the one printed. */
  lemma {:induction false} NumeralsArePrinted(s: string)
    requires IsNumeral(s)
    ensures Value(s) >= 0 && Decimal(Value(s)) == s
    decreases |s|
  {
    var m := |s| - 1;
    assert s == s[..m] + [s[m]];
    ValueOfLast(0, s[..m], s[m]);
    if m > 0 {
      assert s[..m][0] == s[0];
      NumeralsArePrinted(s[..m]);
      NoLeadingZero(s[..m]);
    }
  }

  lemma NoLeadingZero(s: string)
    requires IsNumeral(s) && s != "0" && Value(s) >= 0 && Decimal(Value(s)) == s
    ensures Value(s) > 0
  {
  }

  /** The dash that the format puts in is the last one. */
  lemma LastDash(p: string, t: nat)
    ensures var s := Stamped(p, t);
      |p| < |s| && s[|p|] == '-' && forall k :: |p| < k < |s| ==> s[k] != '-'
  {
    DecimalHasNoDash(t);
    var s := Stamped(p, t);
    assert forall k :: |p| < k < |s| ==> s[k] == Decimal(t)[k - |p| - 1];
  }

  lemma StampedInjective(p: string, t: nat, p': string, t': nat)
    requires Stamped(p, t) == Stamped(p', t')
    ensures p == p' && t == t'
  {
    LastDash(p, t);
    LastDash(p', t');
    var s := Stamped(p, t);
    assert p == s[..|p|] && p' == s[..|p'|];
    assert Decimal(t) == s[|p| + 1..] && Decimal(t') == s[|p'| + 1..];
    DecimalInjective(t, t');
  }

  /** What stands after the last dash of an ID reads as its time, and what stands before
      it is its prefix. */
  lemma IdReadsBack(p: string, t: nat, i: nat)
    requires var s := Stamped(p, t);
      i < |s| && s[i] == '-' && forall k :: i < k < |s| ==> s[k] != '-'
    ensures Stamped(p, t)[..i] == p && Value(Stamped(p, t)[i + 1..]) == t
  {
    LastDash(p, t);
    DecimalReadsBack(t);
    assert i == |p|;
    assert Stamped(p, t)[i + 1..] == Decimal(t);
  }

  lemma IdsDetermineTheirParts(name: string, t1: nat, t2: nat, name': string, t1': nat, t2': nat)
    ensures GroupId(name, t1) == GroupId(name', t1') <==> name == name' && t1 == t1'
    ensures SnapshotId(name, t1, t2) == SnapshotId(name', t1', t2')
       <==> name == name' && t1 == t1' && t2 == t2'
  {
    if GroupId(name, t1) == GroupId(name', t1') {
      StampedInjective(name, t1, name', t1');
    }
    if SnapshotId(name, t1, t2) == SnapshotId(name', t1', t2') {
      StampedInjective(GroupId(name, t1), t2, GroupId(name', t1'), t2');
      StampedInjective(name, t1, name', t1');
    }
  }

  /** A snapshot ID belongs to one group only. */
  lemma SnapshotOfOneGroup(g: string, h: string, s: string)
    requires SnapshotOf(g, s) && SnapshotOf(h, s)
    ensures g == h
  {
    var t: nat :| s == Stamped(g, t);
    var u: nat :| s == Stamped(h, u);
    StampedInjective(g, t, h, u);
  }

  /** Job names and paths name one snapshot each, and no save job is a delete job. */
  lemma NamesNeverCollide(a: string, b: string)
    ensures SaveJobName(a) == SaveJobName(b) <==> a == b
    ensures DeleteJobName(a) == DeleteJobName(b) <==> a == b
    ensures SnapshotPath(a) == SnapshotPath(b) <==> a == b
    ensures SaveJobName(a) != DeleteJobName(b)
  {
    assert SaveJobName(a)[19..] == a && SaveJobName(b)[19..] == b;
    assert DeleteJobName(a)[21..] == a && DeleteJobName(b)[21..] == b;
    assert SnapshotPath(a)[11..|SnapshotPath(a)| - 3] == a;
    assert SnapshotPath(b)[11..|SnapshotPath(b)| - 3] == b;
    assert SaveJobName(a)[14] == 's' && DeleteJobName(b)[14] == 'd';
  }
}
