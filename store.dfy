/*
 * The persistence collaborator (a SwiftData model context) reduced to what the
 * views rely on: the reminders it holds, inserting one and deleting one. Saving
 * is left to the callers, which either ignore its failure or branch on it.
 */
module Store {
  import opened ReminderModel

  /** No object occurs twice in the list. */
  predicate Distinct(rs: seq<Reminder>)
  {
    forall i, j :: 0 <= i < j < |rs| ==> rs[i] != rs[j]
  }

  /** `rs` with every occurrence of `x` taken out, the rest in order. */
  function Without(rs: seq<Reminder>, x: Reminder): (out: seq<Reminder>)
    ensures x !in out
    ensures forall i :: 0 <= i < |out| ==> out[i] in rs
    ensures forall i :: 0 <= i < |rs| && rs[i] != x ==> rs[i] in out
    ensures |out| <= |rs|
    ensures x in rs ==> |out| < |rs|
  {
    if rs == [] then []
    else if rs[0] == x then Without(rs[1..], x)
    else [rs[0]] + Without(rs[1..], x)
  }

  /** In a list without repeats, deleting the reminder at position `i` leaves
      exactly the reminders before it followed by those after it. */
  lemma WithoutAt(rs: seq<Reminder>, i: nat)
    requires Distinct(rs) && i < |rs|
    ensures Without(rs, rs[i]) == rs[..i] + rs[i + 1..]
  {
    assert rs[i] !in rs[..i] by {
      forall j | 0 <= j < i ensures rs[..i][j] != rs[i] { assert rs[..i][j] == rs[j]; }
    }
    var after := rs[i + 1..];
    forall j | 0 <= j < |after| ensures after[j] != rs[i] { assert after[j] == rs[i + 1 + j]; }
    WithoutSingle(rs, i);
  }

  /** Deleting a reminder that occurs once, at position `i`. */
  lemma {:induction false} WithoutSingle(rs: seq<Reminder>, i: nat)
    requires i < |rs| && rs[i] !in rs[..i] && rs[i] !in rs[i + 1..]
    ensures Without(rs, rs[i]) == rs[..i] + rs[i + 1..]
  {
    var t := rs[1..];
    if i == 0 {
      WithoutAbsent(t, rs[0]);
      assert rs[..0] + rs[1..] == t;
    } else {
      assert rs[0] in rs[..i];
      assert t[i - 1] == rs[i];
      assert t[..i - 1] == rs[1..i];
      assert t[i..] == rs[i + 1..];
      WithoutSingle(t, i - 1);
      assert rs[..i] == [rs[0]] + t[..i - 1];
      assert rs[..i] + rs[i + 1..] == [rs[0]] + (t[..i - 1] + t[i..]);
    }
  }

  /** Deleting keeps a repeat-free list repeat-free. */
  lemma {:induction false} WithoutDistinct(rs: seq<Reminder>, x: Reminder)
    requires Distinct(rs)
    ensures Distinct(Without(rs, x))
  {
    if rs != [] {
      DistinctTail(rs);
      WithoutDistinct(rs[1..], x);
      if rs[0] != x {
        var w := Without(rs[1..], x);
        forall j | 0 <= j < |w|
          ensures w[j] != rs[0]
        {
          var k :| 0 <= k < |rs[1..]| && rs[1..][k] == w[j];
          assert rs[k + 1] == w[j];
        }
      }
    }
  }

  lemma DistinctTail(rs: seq<Reminder>)
    requires Distinct(rs) && rs != []
    ensures Distinct(rs[1..])
  {
    forall a, b | 0 <= a < b < |rs| - 1
      ensures rs[1..][a] != rs[1..][b]
    {
      assert rs[1..][a] == rs[a + 1] && rs[1..][b] == rs[b + 1];
    }
  }

  /** Deleting a reminder that is not in the list changes nothing. */
  lemma {:induction false} WithoutAbsent(rs: seq<Reminder>, x: Reminder)
    requires x !in rs
    ensures Without(rs, x) == rs
  {
    if rs != [] {
      WithoutAbsent(rs[1..], x);
      assert [rs[0]] + rs[1..] == rs;
    }
  }

  class ModelContext {
    /** The reminders the context holds. */
    var reminders: seq<Reminder>

    ghost predicate Valid()
      reads this
    {
      Distinct(reminders)
    }

    constructor ()
      ensures Valid() && reminders == []
    {
      reminders := [];
    }

    /** Registers a reminder that is not yet held. */
    method Insert(r: Reminder)
      requires Valid() && r !in reminders
      modifies this
      ensures Valid() && reminders == old(reminders) + [r]
    {
      reminders := reminders + [r];
    }

    /** Removes a reminder; a reminder the context does not hold is ignored. */
    method Delete(r: Reminder)
      requires Valid()
      modifies this
      ensures Valid() && reminders == Without(old(reminders), r)
    {
      WithoutDistinct(reminders, r);
      reminders := Without(reminders, r);
    }
  }
}
