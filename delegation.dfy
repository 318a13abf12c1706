/** Delegation of approval rights (`approval.delegate`): an original user
    may hand their approvals to a delegate for an inclusive date range. */
module Delegation {
  import opened Base

  /** One `approval.delegate` record; dates are day numbers. */
  datatype Delegation = Delegation(
    original: UserId,
    delegate: UserId,
    startDate: int,
    endDate: int,
    active: bool)

  /** The search domain of `get_delegate`: active, and `start <= today <= end`. */
  predicate ActiveOn(d: Delegation, today: int)
  {
    d.active && d.startDate <= today <= d.endDate
  }

  /** Reference definition: the delegates of every delegation that is active
      today and whose original user is one of `users`. */
  ghost function ActiveDelegates(users: set<UserId>, dels: seq<Delegation>, today: int): set<UserId>
  {
    set i | 0 <= i < |dels| && ActiveOn(dels[i], today) && dels[i].original in users :: dels[i].delegate
  }

  /** The delegation records found by the search, mapped to their delegate
      user (`delegations.mapped('delegate_user_id')`). */
  function SearchDelegates(users: set<UserId>, dels: seq<Delegation>, today: int): (r: set<UserId>)
    ensures forall v :: v in r ==> exists i :: 0 <= i < |dels| && dels[i].delegate == v
  {
    if dels == [] then {}
    else
      var rest := SearchDelegates(users, dels[1..], today);
      assert forall v :: v in rest ==> exists i :: 0 <= i < |dels| && dels[i].delegate == v by {
        forall v | v in rest ensures exists i :: 0 <= i < |dels| && dels[i].delegate == v {
          var j :| 0 <= j < |dels[1..]| && dels[1..][j].delegate == v;
          assert dels[j + 1].delegate == v;
        }
      }
      if ActiveOn(dels[0], today) && dels[0].original in users then {dels[0].delegate} + rest else rest
  }

  /** `get_delegate`: the given users together with their active delegates. */
  function GetDelegate(users: set<UserId>, dels: seq<Delegation>, today: int): (r: set<UserId>)
    ensures users == {} ==> r == {}
    ensures users <= r
  {
    if users == {} then {} else users + SearchDelegates(users, dels, today)
  }

  lemma {:induction false} SearchDelegatesIsActiveDelegates(users: set<UserId>, dels: seq<Delegation>, today: int)
    ensures SearchDelegates(users, dels, today) == ActiveDelegates(users, dels, today)
    decreases |dels|
  {
    if dels != [] {
      SearchDelegatesIsActiveDelegates(users, dels[1..], today);
      var head := if ActiveOn(dels[0], today) && dels[0].original in users then {dels[0].delegate} else {};
      var whole := ActiveDelegates(users, dels, today);
      var tail := ActiveDelegates(users, dels[1..], today);
      forall v | v in whole ensures v in head + tail {
        var i :| 0 <= i < |dels| && ActiveOn(dels[i], today) && dels[i].original in users && dels[i].delegate == v;
        if i > 0 {
          assert dels[1..][i - 1] == dels[i];
        }
      }
      forall v | v in tail ensures v in whole {
        var i :| 0 <= i < |dels[1..]| && ActiveOn(dels[1..][i], today) && dels[1..][i].original in users && dels[1..][i].delegate == v;
        assert dels[i + 1] == dels[1..][i];
      }
    }
  }

  /** The result is exactly the input users plus the delegates of the
      delegations active today whose original is an input user. */
  lemma GetDelegateIsUnion(users: set<UserId>, dels: seq<Delegation>, today: int)
    ensures GetDelegate(users, dels, today) == users + ActiveDelegates(users, dels, today)
  {
    SearchDelegatesIsActiveDelegates(users, dels, today);
  }

  /** Membership, both directions. */
  lemma GetDelegateMembership(users: set<UserId>, dels: seq<Delegation>, today: int, v: UserId)
    ensures v in GetDelegate(users, dels, today) <==>
      v in users || exists i :: 0 <= i < |dels| && ActiveOn(dels[i], today) && dels[i].original in users && dels[i].delegate == v
  {
    GetDelegateIsUnion(users, dels, today);
  }

  /** Enlarging the input set never shrinks the result. */
  lemma GetDelegateMonotone(users: set<UserId>, more: set<UserId>, dels: seq<Delegation>, today: int)
    requires users <= more
    ensures GetDelegate(users, dels, today) <= GetDelegate(more, dels, today)
  {
    GetDelegateIsUnion(users, dels, today);
    GetDelegateIsUnion(more, dels, today);
  }

  /** Delegation is single-level: when `a` delegates to `b` and `b` delegates
      to `c`, asking for `{a}` yields `{a, b}` and never `c`. */
  lemma DelegationIsSingleLevel(a: UserId, b: UserId, c: UserId, today: int)
    requires a != b && a != c && b != c
    ensures var dels := [Delegation(a, b, today, today, true), Delegation(b, c, today, today, true)];
      GetDelegate({a}, dels, today) == {a, b}
  {
    var dels := [Delegation(a, b, today, today, true), Delegation(b, c, today, today, true)];
    assert dels[1..][1..] == [];
    assert SearchDelegates({a}, dels[1..], today) == {};
  }

  /** A delegation that is inactive, or whose range excludes today, adds nobody. */
  lemma InactiveDelegationIgnored(users: set<UserId>, d: Delegation, today: int)
    requires !ActiveOn(d, today)
    ensures GetDelegate(users, [d], today) == users
  {
  }

  /** `{A, B}` where only A has an active delegate A' gives `{A, A', B}`. */
  lemma UnionExample(a: UserId, a2: UserId, b: UserId, day: int)
    ensures GetDelegate({a, b}, [Delegation(a, a2, day - 1, day + 1, true)], day) == {a, a2, b}
  {
  }
}
