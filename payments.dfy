/**
 * The split-bill form of the payments page: the participant list, its three
 * handlers and the running total that an effect recomputes after each change.
 */
module Payments {
  import opened Wrappers
  import opened Sequences

  datatype Participant = Participant(id: int, name: string, amount: real, phone: string)

  /** A participant as the form creates it: no name, no phone, amount 0. */
  function Blank(id: int): Participant {
    Participant(id, "", 0.0, "")
  }

  /** The two fields the form edits: the name box and the amount box. */
  datatype FieldUpdate = SetName(name: string) | SetAmount(amount: real)

  /** The amount box passes `parseFloat(value) || 0`; `None` is `NaN`. */
  function AmountInput(parsed: Option<real>): real {
    if parsed.Some? then parsed.value else 0.0
  }

  function Apply(p: Participant, u: FieldUpdate): Participant {
    match u
    case SetName(n) => p.(name := n)
    case SetAmount(a) => p.(amount := a)
  }

  /** `prev.filter(p => p.id !== id)`. */
  function Without(ps: seq<Participant>, id: int): (r: seq<Participant>)
    ensures |r| <= |ps|
  {
    if ps == [] then []
    else (if ps[0].id != id then [ps[0]] else []) + Without(ps[1..], id)
  }

  /** `prev.map(p => p.id === id ? { ...p, [field]: value } : p)`. */
  function Updated(ps: seq<Participant>, id: int, u: FieldUpdate): (r: seq<Participant>)
    ensures |r| == |ps|
  {
    if ps == [] then []
    else [if ps[0].id == id then Apply(ps[0], u) else ps[0]] + Updated(ps[1..], id, u)
  }

  /** `reduce((sum, p) => sum + p.amount, 0)`, folded from the left. */
  function Total(ps: seq<Participant>): real {
    if ps == [] then 0.0 else Total(ps[..|ps| - 1]) + ps[|ps| - 1].amount
  }

  predicate UniqueIds(ps: seq<Participant>) {
    forall i, j :: 0 <= i < j < |ps| ==> ps[i].id != ps[j].id
  }

  function CountId(ps: seq<Participant>, id: int): nat {
    if ps == [] then 0 else (if ps[0].id == id then 1 else 0) + CountId(ps[1..], id)
  }

  /** Removing drops exactly the participants with that id and keeps the others in order. */
  lemma {:induction false} WithoutKeepsOthers(ps: seq<Participant>, id: int)
    ensures IsSubsequence(Without(ps, id), ps)
    ensures forall p :: multiset(Without(ps, id))[p] == if p.id != id then multiset(ps)[p] else 0
    ensures forall p :: p in Without(ps, id) <==> p in ps && p.id != id
    ensures |Without(ps, id)| == |ps| - CountId(ps, id)
  {
    if ps != [] {
      var rest := Without(ps[1..], id);
      WithoutKeepsOthers(ps[1..], id);
      assert ps == [ps[0]] + ps[1..];
      assert multiset(ps) == multiset{ps[0]} + multiset(ps[1..]);
      if ps[0].id != id {
        var r := Without(ps, id);
        assert r == [ps[0]] + rest;
        assert r[1..] == rest;
        assert multiset(r) == multiset{ps[0]} + multiset(rest);
      } else {
        assert Without(ps, id) == rest;
      }
    }
  }

  lemma {:induction false} UniqueIdsCountAtMostOne(ps: seq<Participant>, id: int)
    requires UniqueIds(ps)
    ensures CountId(ps, id) <= 1
  {
    if ps != [] {
      UniqueIdsCountAtMostOne(ps[1..], id);
      if ps[0].id == id && CountId(ps[1..], id) > 0 {
        CountIdWitness(ps[1..], id);
        assert false;
      }
    }
  }

  lemma {:induction false} CountIdWitness(ps: seq<Participant>, id: int)
    requires CountId(ps, id) > 0
    ensures exists k :: 0 <= k < |ps| && ps[k].id == id
  {
    if ps[0].id != id {
      CountIdWitness(ps[1..], id);
      var k :| 0 <= k < |ps[1..]| && ps[1..][k].id == id;
      assert ps[k + 1].id == id;
    }
  }

  /**
   * With distinct ids, removing from a list of more than one participant
   * removes at most one and never empties the list.
   */
  lemma RemoveNeverEmpties(ps: seq<Participant>, id: int)
    requires UniqueIds(ps) && |ps| > 1
    ensures |Without(ps, id)| >= |ps| - 1 >= 1
  {
    WithoutKeepsOthers(ps, id);
    UniqueIdsCountAtMostOne(ps, id);
  }

  /** Change touches only the named field of the participants with that id. */
  lemma {:induction false} UpdatedAt(ps: seq<Participant>, id: int, u: FieldUpdate, i: nat)
    requires i < |ps|
    ensures ps[i].id != id ==> Updated(ps, id, u)[i] == ps[i]
    ensures ps[i].id == id && u.SetName? ==> Updated(ps, id, u)[i] == ps[i].(name := u.name)
    ensures ps[i].id == id && u.SetAmount? ==> Updated(ps, id, u)[i] == ps[i].(amount := u.amount)
  {
    if i > 0 {
      UpdatedAt(ps[1..], id, u, i - 1);
    }
  }

  lemma {:induction false} TotalPrepend(p: Participant, ps: seq<Participant>)
    ensures Total([p] + ps) == p.amount + Total(ps)
    decreases |ps|
  {
    if ps != [] {
      var n := |ps| - 1;
      TotalPrepend(p, ps[..n]);
      assert ([p] + ps)[..n + 1] == [p] + ps[..n];
    }
  }

  /** The amounts of the participants with that id, added up. */
  function IdTotal(ps: seq<Participant>, id: int): real {
    if ps == [] then 0.0 else (if ps[0].id == id then ps[0].amount else 0.0) + IdTotal(ps[1..], id)
  }

  /** Renaming leaves the total alone. */
  lemma {:induction false} RenameKeepsTotal(ps: seq<Participant>, id: int, name: string)
    ensures Total(Updated(ps, id, SetName(name))) == Total(ps)
  {
    if ps != [] {
      RenameKeepsTotal(ps[1..], id, name);
      TotalPrepend(ps[0], ps[1..]);
      assert ps == [ps[0]] + ps[1..];
      var head := if ps[0].id == id then ps[0].(name := name) else ps[0];
      TotalPrepend(head, Updated(ps[1..], id, SetName(name)));
    }
  }

  /**
   * Setting an amount replaces the amount of the participant with that id by
   * the new one, and changes nothing when no participant has that id.
   */
  lemma {:induction false} SetAmountShiftsTotal(ps: seq<Participant>, id: int, amount: real)
    ensures CountId(ps, id) == 0 ==> Total(Updated(ps, id, SetAmount(amount))) == Total(ps)
    ensures CountId(ps, id) == 1 ==> Total(Updated(ps, id, SetAmount(amount))) == Total(ps) - IdTotal(ps, id) + amount
  {
    if ps != [] {
      var rest := Updated(ps[1..], id, SetAmount(amount));
      SetAmountShiftsTotal(ps[1..], id, amount);
      TotalPrepend(ps[0], ps[1..]);
      assert ps == [ps[0]] + ps[1..];
      if ps[0].id == id {
        assert Updated(ps, id, SetAmount(amount)) == [ps[0].(amount := amount)] + rest;
        TotalPrepend(ps[0].(amount := amount), rest);
        if CountId(ps[1..], id) == 0 {
          IdTotalOfAbsent(ps[1..], id);
        }
      } else {
        assert Updated(ps, id, SetAmount(amount)) == [ps[0]] + rest;
        TotalPrepend(ps[0], rest);
      }
    }
  }

  /** With distinct ids, an amount change moves the total by the difference for that participant. */
  lemma SetAmountWithUniqueIds(ps: seq<Participant>, id: int, amount: real)
    requires UniqueIds(ps)
    ensures Total(Updated(ps, id, SetAmount(amount))) == Total(ps) - IdTotal(ps, id) + (if CountId(ps, id) == 1 then amount else 0.0)
  {
    UniqueIdsCountAtMostOne(ps, id);
    SetAmountShiftsTotal(ps, id, amount);
    if CountId(ps, id) == 0 {
      IdTotalOfAbsent(ps, id);
    }
  }

  /**
   * An amount box that does not parse (`parseFloat` gives `NaN`, so `|| 0`
   * applies) sets that participant's amount to 0 and takes its old amount off
   * the total; a number is stored as typed.
   */
  lemma UnparsableAmountClearsShare(ps: seq<Participant>, k: nat, x: real)
    requires UniqueIds(ps) && k < |ps|
    ensures Updated(ps, ps[k].id, SetAmount(AmountInput(None)))[k].amount == 0.0
    ensures Total(Updated(ps, ps[k].id, SetAmount(AmountInput(None)))) == Total(ps) - ps[k].amount
    ensures Updated(ps, ps[k].id, SetAmount(AmountInput(Some(x))))[k].amount == x
  {
    UpdatedAt(ps, ps[k].id, SetAmount(AmountInput(None)), k);
    UpdatedAt(ps, ps[k].id, SetAmount(AmountInput(Some(x))), k);
    UniqueIdAt(ps, k);
    SetAmountShiftsTotal(ps, ps[k].id, 0.0);
  }

  /** With distinct ids, the id at position k occurs once and its amounts add up to that participant's. */
  lemma {:induction false} UniqueIdAt(ps: seq<Participant>, k: nat)
    requires UniqueIds(ps) && k < |ps|
    ensures CountId(ps, ps[k].id) == 1
    ensures IdTotal(ps, ps[k].id) == ps[k].amount
  {
    var id := ps[k].id;
    assert UniqueIds(ps[1..]) by {
      forall i, j | 0 <= i < j < |ps[1..]| ensures ps[1..][i].id != ps[1..][j].id {
        assert ps[1..][i] == ps[i + 1] && ps[1..][j] == ps[j + 1];
      }
    }
    if k == 0 {
      if CountId(ps[1..], id) > 0 {
        CountIdWitness(ps[1..], id);
        assert false;
      }
      IdTotalOfAbsent(ps[1..], id);
    } else {
      assert ps[0].id != id;
      assert ps[1..][k - 1] == ps[k];
      UniqueIdAt(ps[1..], k - 1);
    }
  }

  lemma {:induction false} IdTotalOfAbsent(ps: seq<Participant>, id: int)
    requires CountId(ps, id) == 0
    ensures IdTotal(ps, id) == 0.0
  {
    if ps != [] {
      IdTotalOfAbsent(ps[1..], id);
    }
  }

  /** The split-bill form's state. */
  class SplitBill {
    var participants: seq<Participant>
    var splitTotal: real

    /** `splitTotal` is in step with the list, as the effect keeps it after each change. */
    ghost predicate Valid()
      reads this
    {
      splitTotal == Total(participants)
    }

    constructor ()
      ensures Valid()
      ensures participants == [Blank(1)] && splitTotal == 0.0
    {
      participants := [Blank(1)];
      splitTotal := 0.0;
    }

    /** `calculateSplitTotal`: the reduce over the participants. */
    method CalculateSplitTotal()
      modifies this`splitTotal
      ensures Valid()
    {
      var total := 0.0;
      var i := 0;
      while i < |participants|
        invariant 0 <= i <= |participants|
        invariant total == Total(participants[..i])
      {
        assert participants[..i + 1][..i] == participants[..i];
        total := total + participants[i].amount;
        i := i + 1;
      }
      assert participants[..i] == participants;
      splitTotal := total;
    }

    /** `handleAddParticipant`, with `Date.now()` as `now`, followed by the effect. */
    method AddParticipant(now: int)
      modifies this
      ensures participants == old(participants) + [Blank(now)]
      ensures Valid() && splitTotal == old(Total(participants))
    {
      participants := participants + [Blank(now)];
      CalculateSplitTotal();
      assert participants[..|participants| - 1] == old(participants);
    }

    /** `handleRemoveParticipant`, followed by the effect. */
    method RemoveParticipant(id: int)
      modifies this
      ensures participants == if |old(participants)| > 1 then Without(old(participants), id) else old(participants)
      ensures Valid()
    {
      if |participants| > 1 {
        participants := Without(participants, id);
      }
      CalculateSplitTotal();
    }

    /** `handleParticipantChange` for the name or the amount box, followed by the effect. */
    method ParticipantChange(id: int, u: FieldUpdate)
      modifies this
      ensures participants == Updated(old(participants), id, u)
      ensures Valid()
    {
      participants := Updated(participants, id, u);
      CalculateSplitTotal();
    }

    /** The Create button is disabled while the total is 0. */
    function CreateDisabled(): bool
      reads this
    {
      splitTotal == 0.0
    }
  }

  /** A fresh form cannot be submitted until some amount is entered. */
  lemma FreshFormCannotCreate()
    ensures Total([Blank(1)]) == 0.0
    ensures Total(Updated([Blank(1)], 1, SetAmount(250.0))) == 250.0
  {
    UpdatedAt([Blank(1)], 1, SetAmount(250.0), 0);
    assert Updated([Blank(1)], 1, SetAmount(250.0)) == [Blank(1).(amount := 250.0)];
  }
}
