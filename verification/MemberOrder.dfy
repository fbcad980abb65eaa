/** The stable sort of folder members by basename. */
module MemberOrder {
  import opened Text

  datatype Member = Member(name: string, body: string)

  /** Puts a member in front of the first one with a larger name, behind all of its own name. */
  function Insert(m: Member, sorted: seq<Member>): (r: seq<Member>)
    ensures multiset(r) == multiset(sorted) + multiset{m}
  {
    if sorted == [] then [m]
    else if LessEq(sorted[0].name, m.name) then
      assert sorted == [sorted[0]] + sorted[1..];
      [sorted[0]] + Insert(m, sorted[1..])
    else [m] + sorted
  }

  function Sort(members: seq<Member>): (r: seq<Member>)
    ensures multiset(r) == multiset(members)
  {
    if members == [] then []
    else
      assert members == members[..|members| - 1] + [members[|members| - 1]];
      Insert(members[|members| - 1], Sort(members[..|members| - 1]))
  }

  // ----- What a stable sort is -----

  predicate Sorted(members: seq<Member>) {
    forall i, j :: 0 <= i < j < |members| ==> LessEq(members[i].name, members[j].name)
  }

  /** The members of one name, in order. */
  function Named(members: seq<Member>, name: string): seq<Member> {
    if members == [] then []
    else (if members[0].name == name then [members[0]] else []) + Named(members[1..], name)
  }

  ghost predicate SameByName(a: seq<Member>, b: seq<Member>) {
    forall name: string :: Named(a, name) == Named(b, name)
  }

  lemma NamedCons(m: Member, rest: seq<Member>, name: string)
    ensures Named([m] + rest, name) == (if m.name == name then [m] else []) + Named(rest, name)
  {
    assert ([m] + rest)[1..] == rest;
  }

  lemma ConcatTail(a: seq<Member>, b: seq<Member>)
    requires a != []
    ensures a + b == [a[0]] + (a[1..] + b)
  {
  }

  lemma {:induction false} NamedOfConcat(a: seq<Member>, b: seq<Member>, name: string)
    ensures Named(a + b, name) == Named(a, name) + Named(b, name)
  {
    if a == [] {
      assert a + b == b;
    } else {
      var own := if a[0].name == name then [a[0]] else [];
      ConcatTail(a, b);
      NamedCons(a[0], a[1..] + b, name);
      NamedOfConcat(a[1..], b, name);
      assert own + (Named(a[1..], name) + Named(b, name)) == (own + Named(a[1..], name)) + Named(b, name);
    }
  }

  lemma NamedTail(members: seq<Member>, name: string)
    requires members != []
    ensures Named(members[1..], name)
         == if members[0].name == name then Named(members, name)[1..] else Named(members, name)
  {
  }

  lemma {:induction false} NamedIsNamed(members: seq<Member>, name: string, i: nat)
    requires i < |Named(members, name)|
    ensures Named(members, name)[i] in members && Named(members, name)[i].name == name
  {
    if members[0].name == name {
      if i > 0 {
        NamedIsNamed(members[1..], name, i - 1);
      }
    } else {
      NamedIsNamed(members[1..], name, i);
    }
  }

  lemma {:induction false} NamedEmpty(members: seq<Member>, name: string)
    requires forall i :: 0 <= i < |members| ==> members[i].name != name
    ensures Named(members, name) == []
  {
    if members != [] {
      NamedEmpty(members[1..], name);
    }
  }

  // ----- Sort is one -----

  lemma HeadBelowInserted(m: Member, sorted: seq<Member>)
    requires Sorted(sorted) && sorted != [] && LessEq(sorted[0].name, m.name)
    ensures forall j :: 0 <= j < |Insert(m, sorted[1..])| ==> LessEq(sorted[0].name, Insert(m, sorted[1..])[j].name)
  {
    var rest := Insert(m, sorted[1..]);
    forall j | 0 <= j < |rest| ensures LessEq(sorted[0].name, rest[j].name) {
      assert rest[j] in multiset(rest);
      if rest[j] != m {
        assert rest[j] in sorted[1..];
      }
    }
  }

  lemma BelowSorted(m: Member, sorted: seq<Member>)
    requires Sorted(sorted) && sorted != [] && LessEq(m.name, sorted[0].name)
    ensures Sorted([m] + sorted)
  {
    forall j | 0 <= j < |sorted| ensures LessEq(m.name, sorted[j].name) {
      if j > 0 {
        LessEqTransitive(m.name, sorted[0].name, sorted[j].name);
      }
    }
  }

  lemma {:induction false} InsertSorted(m: Member, sorted: seq<Member>)
    requires Sorted(sorted)
    ensures Sorted(Insert(m, sorted))
  {
    if sorted != [] && LessEq(sorted[0].name, m.name) {
      InsertSorted(m, sorted[1..]);
      HeadBelowInserted(m, sorted);
    } else if sorted != [] {
      LessEqTotal(sorted[0].name, m.name);
      BelowSorted(m, sorted);
    }
  }

  lemma {:induction false} InsertNamed(m: Member, sorted: seq<Member>, name: string)
    requires Sorted(sorted)
    ensures Named(Insert(m, sorted), name) == Named(sorted, name) + Named([m], name)
  {
    var own := Named([m], name);
    if sorted == [] {
      assert Named(sorted, name) + own == own;
    } else if LessEq(sorted[0].name, m.name) {
      InsertNamed(m, sorted[1..], name);
      NamedBehind(sorted[0], sorted[1..], Insert(m, sorted[1..]), own, name);
      assert [sorted[0]] + sorted[1..] == sorted;
    } else {
      NamedOfConcat([m], sorted, name);
      if m.name == name {
        NoneNamedAbove(m.name, sorted);
      }
      assert own + Named(sorted, name) == Named(sorted, name) + own;
    }
  }

  lemma NamedBehind(first: Member, rest: seq<Member>, more: seq<Member>, own: seq<Member>, name: string)
    requires Named(more, name) == Named(rest, name) + own
    ensures Named([first] + more, name) == Named([first] + rest, name) + own
  {
    NamedCons(first, more, name);
    NamedCons(first, rest, name);
  }

  lemma NoneNamedAbove(name: string, sorted: seq<Member>)
    requires Sorted(sorted) && sorted != [] && !LessEq(sorted[0].name, name)
    ensures Named(sorted, name) == []
  {
    forall i | 0 <= i < |sorted| ensures sorted[i].name != name {
      LessEqReflexive(name);
    }
    NamedEmpty(sorted, name);
  }

  /** Sorting orders by name and keeps the members of each name in the order they came in. */
  lemma {:induction false} SortIsStable(members: seq<Member>)
    ensures Sorted(Sort(members))
    ensures SameByName(Sort(members), members)
  {
    if members != [] {
      var n := |members| - 1;
      SortIsStable(members[..n]);
      InsertSorted(members[n], Sort(members[..n]));
      forall name: string ensures Named(Sort(members), name) == Named(members, name) {
        InsertNamed(members[n], Sort(members[..n]), name);
        NamedOfConcat(members[..n], [members[n]], name);
        assert members == members[..n] + [members[n]];
      }
    }
  }

  /** There is only one such order: any other stable sort gives the same list. */
  lemma {:induction false} StableSortUnique(a: seq<Member>, b: seq<Member>)
    requires Sorted(a) && Sorted(b) && SameByName(a, b)
    ensures a == b
  {
    BothEmpty(a, b);
    if a != [] {
      HeadsAgree(a, b);
      forall name: string ensures Named(a[1..], name) == Named(b[1..], name) {
        assert Named(a, name) == Named(b, name);
        NamedTail(a, name);
        NamedTail(b, name);
      }
      StableSortUnique(a[1..], b[1..]);
      assert a == [a[0]] + a[1..] && b == [b[0]] + b[1..];
    }
  }

  lemma SortedIsFixed(members: seq<Member>)
    ensures Sort(members) == members <==> Sorted(members)
  {
    SortIsStable(members);
    if Sorted(members) {
      StableSortUnique(Sort(members), members);
    }
  }

  lemma BothEmpty(a: seq<Member>, b: seq<Member>)
    requires SameByName(a, b)
    ensures a == [] <==> b == []
  {
    assert a != [] ==> Named(a, a[0].name) == Named(b, a[0].name);
    assert b != [] ==> Named(a, b[0].name) == Named(b, b[0].name);
  }

  lemma HeadBelow(a: seq<Member>, b: seq<Member>)
    requires a != [] && b != [] && Sorted(a) && SameByName(a, b)
    ensures LessEq(a[0].name, b[0].name)
  {
    assert Named(a, b[0].name) == Named(b, b[0].name);
    NamedIsNamed(a, b[0].name, 0);
    var m := Named(a, b[0].name)[0];
    var i :| 0 <= i < |a| && a[i] == m;
    LessEqReflexive(a[0].name);
  }

  lemma HeadsAgree(a: seq<Member>, b: seq<Member>)
    requires a != [] && b != [] && Sorted(a) && Sorted(b) && SameByName(a, b)
    ensures a[0] == b[0]
  {
    HeadBelow(a, b);
    HeadBelow(b, a);
    LessEqAntisymmetric(a[0].name, b[0].name);
    assert Named(a, a[0].name)[0] == a[0] && Named(b, a[0].name)[0] == b[0];
    assert Named(a, a[0].name) == Named(b, a[0].name);
  }

  // ----- Distinct names -----

  predicate DistinctNames(members: seq<Member>) {
    forall i, j :: 0 <= i < j < |members| ==> members[i].name != members[j].name
  }

  lemma {:induction false} NamedOnce(members: seq<Member>, k: nat)
    requires DistinctNames(members) && k < |members|
    ensures Named(members, members[k].name) == [members[k]]
  {
    if k == 0 {
      NamedEmpty(members[1..], members[0].name);
    } else {
      NamedOnce(members[1..], k - 1);
    }
  }

  lemma SameSetSameByName(a: seq<Member>, b: seq<Member>)
    requires DistinctNames(a) && DistinctNames(b) && multiset(a) == multiset(b)
    ensures SameByName(a, b)
  {
    forall name: string ensures Named(a, name) == Named(b, name) {
      if i :| 0 <= i < |a| && a[i].name == name {
        assert a[i] in multiset(b);
        var j :| 0 <= j < |b| && b[j] == a[i];
        NamedOnce(a, i);
        NamedOnce(b, j);
      } else {
        NamedEmpty(a, name);
        forall j | 0 <= j < |b| ensures b[j].name != name {
          assert b[j] in multiset(a);
        }
        NamedEmpty(b, name);
      }
    }
  }

  lemma DistinctNamesPermute(a: seq<Member>, b: seq<Member>)
    requires DistinctNames(a) && multiset(a) == multiset(b)
    ensures DistinctNames(b)
  {
    forall i, j | 0 <= i < j < |b| ensures b[i].name != b[j].name {
      MembersTwice(b, i, j);
      assert b[i] in multiset(a) && b[j] in multiset(a);
      var k :| 0 <= k < |a| && a[k] == b[i];
      var l :| 0 <= l < |a| && a[l] == b[j];
      MemberOnce(a, k);
      assert b[i] != b[j];
    }
  }

  lemma MembersTwice(b: seq<Member>, i: nat, j: nat)
    requires i < j < |b|
    ensures b[i] == b[j] ==> multiset(b)[b[i]] >= 2
  {
    assert b == b[..j] + [b[j]] + b[j + 1..];
    assert b[i] == b[..j][i];
    assert b[i] in multiset(b[..j]);
  }

  lemma MemberOnce(a: seq<Member>, k: nat)
    requires DistinctNames(a) && k < |a|
    ensures multiset(a)[a[k]] == 1
  {
    assert a == a[..k] + [a[k]] + a[k + 1..];
    assert a[k] !in a[..k];
    assert a[k] !in a[k + 1..];
  }

  /** With distinct names the order of the input does not matter. */
  lemma OrderIrrelevant(a: seq<Member>, b: seq<Member>)
    requires DistinctNames(a) && multiset(a) == multiset(b)
    ensures Sort(a) == Sort(b)
  {
    DistinctNamesPermute(a, b);
    SameSetSameByName(a, b);
    SortIsStable(a);
    SortIsStable(b);
    assert SameByName(Sort(a), Sort(b));
    StableSortUnique(Sort(a), Sort(b));
  }

  // ----- Repeated names -----

  /** Members of one name are the same member. */
  predicate NamesDetermine(members: seq<Member>) {
    forall i, j :: 0 <= i < |members| && 0 <= j < |members| && members[i].name == members[j].name ==> members[i] == members[j]
  }

  lemma {:induction false} NamedCopies(members: seq<Member>, m: Member)
    requires forall i :: 0 <= i < |members| && members[i].name == m.name ==> members[i] == m
    ensures Named(members, m.name) == seq(multiset(members)[m], _ => m)
  {
    if members != [] {
      NamedCopies(members[1..], m);
      assert members == [members[0]] + members[1..];
      assert multiset(members)[m] == multiset(members[1..])[m] + if members[0] == m then 1 else 0;
    }
  }

  lemma DeterminedSameByName(a: seq<Member>, b: seq<Member>)
    requires NamesDetermine(a) && multiset(a) == multiset(b)
    ensures SameByName(a, b)
  {
    forall name: string ensures Named(a, name) == Named(b, name) {
      if i :| 0 <= i < |a| && a[i].name == name {
        forall j | 0 <= j < |b| && b[j].name == name ensures b[j] == a[i] {
          assert b[j] in multiset(a);
        }
        NamedCopies(a, a[i]);
        NamedCopies(b, a[i]);
      } else {
        NamedEmpty(a, name);
        forall j | 0 <= j < |b| ensures b[j].name != name {
          assert b[j] in multiset(a);
        }
        NamedEmpty(b, name);
      }
    }
  }

  lemma NamedAt(members: seq<Member>, i: nat)
    requires i < |members|
    ensures |Named(members[..i], members[i].name)| < |Named(members, members[i].name)|
    ensures Named(members, members[i].name)[|Named(members[..i], members[i].name)|] == members[i]
  {
    var name := members[i].name;
    assert members == members[..i] + ([members[i]] + members[i + 1..]);
    NamedOfConcat(members[..i], [members[i]] + members[i + 1..], name);
    NamedCons(members[i], members[i + 1..], name);
  }

  function Swap(members: seq<Member>, i: nat, j: nat): (r: seq<Member>)
    requires i < j < |members|
    ensures multiset(r) == multiset(members)
  {
    members[i := members[j]][j := members[i]]
  }

  /** Exchanging two different members of one name shows in the sorted list. */
  lemma SwapShows(members: seq<Member>, i: nat, j: nat)
    requires i < j < |members| && members[i].name == members[j].name && members[i] != members[j]
    ensures Sort(Swap(members, i, j)) != Sort(members)
  {
    var swapped, name := Swap(members, i, j), members[i].name;
    NamedAt(members, i);
    NamedAt(swapped, i);
    assert swapped[..i] == members[..i];
    assert Named(members, name) != Named(swapped, name);
    SortIsStable(members);
    SortIsStable(swapped);
    assert Named(Sort(members), name) == Named(members, name) && Named(Sort(swapped), name) == Named(swapped, name);
  }

  /** No other order of the same members sorts differently. */
  ghost predicate OrderHidden(members: seq<Member>) {
    forall other: seq<Member> :: multiset(other) == multiset(members) ==> Sort(other) == Sort(members)
  }

  /** The order of the input does not show in the sorted list exactly when members of one name are equal. */
  lemma OrderIrrelevantExactly(members: seq<Member>)
    ensures OrderHidden(members) <==> NamesDetermine(members)
  {
    if NamesDetermine(members) {
      forall other: seq<Member> | multiset(other) == multiset(members) ensures Sort(other) == Sort(members) {
        DeterminedSameByName(members, other);
        SortIsStable(members);
        SortIsStable(other);
        assert SameByName(Sort(members), Sort(other));
        StableSortUnique(Sort(members), Sort(other));
      }
    } else {
      var i, j :| 0 <= i < |members| && 0 <= j < |members| && members[i].name == members[j].name && members[i] != members[j];
      var low, high := if i < j then i else j, if i < j then j else i;
      SwapShows(members, low, high);
      assert multiset(Swap(members, low, high)) == multiset(members);
    }
  }

}
