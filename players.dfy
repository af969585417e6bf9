/**
 * The Players tab: the user list in the order `Object.values` gives it,
 * sorted in place by team name (`'blue' < 'other' < 'red'`, a stable sort),
 * each user's team colour and class chips, and `getClassName`.
 */
module Players {
  import opened DemoTypes

  const ClassNames: seq<string> :=
    ["Scout", "Soldier", "Pyro", "Demoman", "Heavy", "Engineer", "Medic", "Sniper", "Spy", "Unknown"]

  /**
   * `getClassName(id)`: the id-th entry of the ten-name table, or "Unknown"
   * for an id outside it. Ids 0..8 are the nine classes; 9 and every other id
   * give "Unknown".
   */
  function ClassName(id: int): (r: string)
    ensures r in ClassNames
    ensures 0 <= id < 9 ==> r == ClassNames[id] && r != "Unknown"
    ensures !(0 <= id < 9) <==> r == "Unknown"
  {
    if 0 <= id < |ClassNames| then ClassNames[id] else "Unknown"
  }

  /** The class id a name stands for: the inverse of `ClassName` on the nine classes. */
  function ClassIdOf(name: string): (id: int)
    ensures -1 <= id < 9
  {
    if name == "Scout" then 0 else if name == "Soldier" then 1 else if name == "Pyro" then 2
    else if name == "Demoman" then 3 else if name == "Heavy" then 4 else if name == "Engineer" then 5
    else if name == "Medic" then 6 else if name == "Sniper" then 7 else if name == "Spy" then 8
    else -1
  }

  /** Class names identify the class: the name of a known class leads back to its id. */
  lemma ClassNameRoundTrip(id: int)
    ensures 0 <= id < 9 ==> ClassIdOf(ClassName(id)) == id
    ensures !(0 <= id < 9) ==> ClassIdOf(ClassName(id)) == -1
  {
  }

  /** One chip under a player card: a class name and its count. */
  datatype Chip = Chip(className: string, count: int)

  function ChipOf(e: ClassCount): Chip {
    Chip(ClassName(e.classId), e.count)
  }

  /** The chips of `Object.entries(user.classes)`: entries with a count above zero only, in entry order. */
  function ClassChips(classes: seq<ClassCount>): (chips: seq<Chip>)
    ensures |chips| <= |classes|
    ensures forall c :: c in chips ==> c.count > 0
    ensures forall c :: c in chips <==> exists e :: e in classes && e.count > 0 && c == ChipOf(e)
  {
    if classes == [] then []
    else
      var rest := ClassChips(classes[1..]);
      assert forall e :: e in classes <==> e == classes[0] || e in classes[1..];
      if classes[0].count > 0 then [ChipOf(classes[0])] + rest else rest
  }

  /** The chips keep entry order: the chips of two runs of entries are the two runs' chips, in turn. */
  lemma {:induction false} ClassChipsAppend(a: seq<ClassCount>, b: seq<ClassCount>)
    ensures ClassChips(a + b) == ClassChips(a) + ClassChips(b)
  {
    if a == [] {
      assert a + b == b;
    } else {
      assert (a + b)[0] == a[0];
      assert (a + b)[1..] == a[1..] + b;
      ClassChipsAppend(a[1..], b);
    }
  }

  /** How a team colours a card or a killfeed name: red, blue, or neutral for 'other'. */
  datatype Colour = RedColour | BlueColour | Neutral

  function TeamColour(t: Team): (c: Colour)
    ensures c == RedColour <==> t == Red
    ensures c == BlueColour <==> t == Blue
    ensures c == Neutral <==> t == Other
  {
    match t
    case Red => RedColour
    case Blue => BlueColour
    case Other => Neutral
  }

  // ---------------------------------------------------------------------
  // The order of the user list

  function TeamName(t: Team): string {
    match t
    case Red => "red"
    case Blue => "blue"
    case Other => "other"
  }

  /** Strict code-point lexicographic order, which `localeCompare` agrees with on the three team names. */
  predicate Before(a: string, b: string) {
    if a == [] then b != []
    else if b == [] then false
    else if a[0] != b[0] then a[0] < b[0]
    else Before(a[1..], b[1..])
  }

  /** A team's place in the sort: blue, then other, then red. */
  function TeamRank(t: Team): (k: nat)
    ensures k < 3
  {
    match t
    case Blue => 0
    case Other => 1
    case Red => 2
  }

  /** The rank order is exactly the order of the team names. */
  lemma TeamRankIsNameOrder(a: Team, b: Team)
    ensures TeamRank(a) < TeamRank(b) <==> Before(TeamName(a), TeamName(b))
  {
    assert Before("blue", "other") && Before("blue", "red") && Before("other", "red");
    assert !Before("other", "blue") && !Before("red", "blue") && !Before("red", "other");
    assert !Before("blue", "blue") && !Before("other", "other");
    assert "red"[1..] == "ed" && !Before("ed", "ed");
  }

  /** The users of team `t`, in list order. */
  function OfTeam(s: seq<User>, t: Team): (r: seq<User>)
    ensures |r| <= |s|
    ensures forall i :: 0 <= i < |r| ==> r[i].team == t
  {
    if s == [] then []
    else OfTeam(s[..|s| - 1], t) + if s[|s| - 1].team == t then [s[|s| - 1]] else []
  }

  /** The stable sort by team: blue users, then other, then red, each group in list order. */
  function ByTeam(s: seq<User>): (r: seq<User>)
    ensures |r| == |s|
  {
    var blue, other, red := OfTeam(s, Blue), OfTeam(s, Other), OfTeam(s, Red);
    OfTeamPartition(s);
    assert |multiset(blue + other + red)| == |multiset(s)|;
    blue + other + red
  }

  predicate SortedByTeam(s: seq<User>) {
    forall i, j :: 0 <= i < j < |s| ==> TeamRank(s[i].team) <= TeamRank(s[j].team)
  }

  lemma {:induction false} OfTeamAppend(a: seq<User>, b: seq<User>, t: Team)
    ensures OfTeam(a + b, t) == OfTeam(a, t) + OfTeam(b, t)
  {
    if b == [] {
      assert a + b == a;
    } else {
      assert (a + b)[..|a + b| - 1] == a + b[..|b| - 1];
      OfTeamAppend(a, b[..|b| - 1], t);
    }
  }

  lemma {:induction false} OfTeamNone(s: seq<User>, t: Team)
    requires forall i :: 0 <= i < |s| ==> s[i].team != t
    ensures OfTeam(s, t) == []
  {
    if s != [] {
      OfTeamNone(s[..|s| - 1], t);
    }
  }

  lemma {:induction false} OfTeamAll(s: seq<User>, t: Team)
    requires forall i :: 0 <= i < |s| ==> s[i].team == t
    ensures OfTeam(s, t) == s
  {
    if s != [] {
      OfTeamAll(s[..|s| - 1], t);
    }
  }

  lemma OfTeamSnoc(p: seq<User>, x: User, t: Team)
    ensures OfTeam(p + [x], t) == OfTeam(p, t) + if TeamRank(x.team) == TeamRank(t) then [x] else []
  {
    assert (p + [x])[..|p|] == p;
  }

  /** The three team groups together hold every user exactly as often as the list does. */
  lemma {:induction false} OfTeamPartition(s: seq<User>)
    ensures multiset(OfTeam(s, Blue)) + multiset(OfTeam(s, Other)) + multiset(OfTeam(s, Red)) == multiset(s)
  {
    if s != [] {
      var p, x := s[..|s| - 1], s[|s| - 1];
      OfTeamPartition(p);
      assert s == p + [x];
      PartitionStep(p, x);
    }
  }

  lemma PartitionStep(p: seq<User>, x: User)
    requires multiset(OfTeam(p, Blue)) + multiset(OfTeam(p, Other)) + multiset(OfTeam(p, Red)) == multiset(p)
    ensures multiset(OfTeam(p + [x], Blue)) + multiset(OfTeam(p + [x], Other)) + multiset(OfTeam(p + [x], Red))
      == multiset(p + [x])
  {
    OfTeamSnoc(p, x, Blue);
    OfTeamSnoc(p, x, Other);
    OfTeamSnoc(p, x, Red);
    GroupsGrow(OfTeam(p, Blue), OfTeam(p, Other), OfTeam(p, Red), p, x, TeamRank(x.team));
  }

  /** Adding `x` to group `k` of three groups that partition `p` gives groups that partition `p + [x]`. */
  lemma GroupsGrow(b: seq<User>, o: seq<User>, r: seq<User>, p: seq<User>, x: User, k: nat)
    requires multiset(b) + multiset(o) + multiset(r) == multiset(p)
    requires k < 3
    ensures multiset(b + if k == 0 then [x] else []) + multiset(o + if k == 1 then [x] else [])
      + multiset(r + if k == 2 then [x] else []) == multiset(p + [x])
  {
    assert multiset(p + [x]) == multiset(p) + multiset{x};
    if k == 0 {
      assert multiset(b + [x]) == multiset(b) + multiset{x};
    } else if k == 1 {
      assert multiset(o + [x]) == multiset(o) + multiset{x};
    } else {
      assert multiset(r + [x]) == multiset(r) + multiset{x};
    }
  }

  /** The team sort is a permutation: no user is created, dropped or duplicated. */
  lemma ByTeamPermutation(s: seq<User>)
    ensures multiset(ByTeam(s)) == multiset(s)
    ensures |ByTeam(s)| == |s|
  {
    OfTeamPartition(s);
    assert |multiset(ByTeam(s))| == |multiset(s)|;
  }

  /** The team sort is sorted: blue before other before red. */
  lemma ByTeamSorted(s: seq<User>)
    ensures SortedByTeam(ByTeam(s))
  {
    var b, o, r := OfTeam(s, Blue), OfTeam(s, Other), OfTeam(s, Red);
    var out := ByTeam(s);
    forall i | 0 <= i < |out|
      ensures TeamRank(out[i].team) == if i < |b| then 0 else if i < |b| + |o| then 1 else 2
    {
      if i < |b| {
        assert out[i] == b[i];
      } else if i < |b| + |o| {
        assert out[i] == o[i - |b|];
      } else {
        assert out[i] == r[i - |b| - |o|];
      }
    }
  }

  /** Keeping only one team's users of a team group leaves that group, or nothing. */
  lemma {:induction false} OfTeamOfTeam(s: seq<User>, t: Team, t': Team)
    ensures OfTeam(OfTeam(s, t), t') == if TeamRank(t) == TeamRank(t') then OfTeam(s, t) else []
  {
    var g := OfTeam(s, t);
    if t == t' {
      OfTeamAll(g, t);
    } else {
      OfTeamNone(g, t');
    }
  }

  /** The team sort is stable: the users of each team keep their relative order. */
  lemma {:induction false} ByTeamStable(s: seq<User>, t: Team)
    ensures OfTeam(ByTeam(s), t) == OfTeam(s, t)
  {
    var b, o, r := OfTeam(s, Blue), OfTeam(s, Other), OfTeam(s, Red);
    assert ByTeam(s) == (b + o) + r;
    OfTeamAppend(b + o, r, t);
    OfTeamAppend(b, o, t);
    OfTeamOfTeam(s, Blue, t);
    OfTeamOfTeam(s, Other, t);
    OfTeamOfTeam(s, Red, t);
    OneGroupLeft(OfTeam(b, t), OfTeam(o, t), OfTeam(r, t), b, o, r, TeamRank(t));
  }


  /** Of three groups, keeping group `k` and emptying the others leaves just group `k`. */
  lemma OneGroupLeft(gb: seq<User>, go: seq<User>, gr: seq<User>, b: seq<User>, o: seq<User>, r: seq<User>, k: nat)
    requires k < 3
    requires gb == (if k == 0 then b else [])
    requires go == (if k == 1 then o else [])
    requires gr == (if k == 2 then r else [])
    ensures gb + go + gr == if k == 0 then b else if k == 1 then o else r
  {
  }


  /** A list already sorted by team is its own team sort. */
  lemma SortedPrefix(p: seq<User>, x: User)
    requires SortedByTeam(p + [x])
    ensures SortedByTeam(p)
    ensures forall i :: 0 <= i < |p| ==> TeamRank(p[i].team) <= TeamRank(x.team)
  {
    var s := p + [x];
    assert forall i :: 0 <= i < |p| ==> p[i] == s[i];
    assert s[|p|] == x;
  }

  lemma {:induction false} SortedIsByTeam(s: seq<User>)
    requires SortedByTeam(s)
    ensures s == ByTeam(s)
  {
    if s != [] {
      var p, x := s[..|s| - 1], s[|s| - 1];
      assert s == p + [x];
      SortedPrefix(p, x);
      SortedIsByTeam(p);
      OfTeamSnoc(p, x, Blue);
      OfTeamSnoc(p, x, Other);
      OfTeamSnoc(p, x, Red);
      var k := TeamRank(x.team);
      if k < 2 {
        OfTeamNone(p, Red);
      }
      if k < 1 {
        OfTeamNone(p, Other);
      }
      GroupsAppend(OfTeam(p, Blue), OfTeam(p, Other), OfTeam(p, Red), x, k);
    }
  }

  /** Adding `x` to the last non-empty group of three (or a later one) adds it at the end of their concatenation. */
  lemma GroupsAppend(b: seq<User>, o: seq<User>, r: seq<User>, x: User, k: nat)
    requires k < 3
    requires k < 2 ==> r == []
    requires k < 1 ==> o == []
    ensures (b + if k == 0 then [x] else []) + (o + if k == 1 then [x] else []) + (r + if k == 2 then [x] else [])
      == b + o + r + [x]
  {
  }

  /**
   * The team sort is the only stable sort by team: any list sorted by team
   * whose team groups are those of `s`, in the same order, is ByTeam(s).
   */
  lemma StableSortIsByTeam(s: seq<User>, r: seq<User>)
    requires SortedByTeam(r)
    requires forall t :: OfTeam(r, t) == OfTeam(s, t)
    ensures r == ByTeam(s)
  {
    SortedIsByTeam(r);
  }

  /** Sorting an already sorted list changes nothing. */
  lemma ByTeamIdempotent(s: seq<User>)
    ensures ByTeam(ByTeam(s)) == ByTeam(s)
  {
    ByTeamSorted(s);
    SortedIsByTeam(ByTeam(s));
  }

  /** One pass over the array, gathering each team's users in order: the stable team sort of its contents. */
  method TeamGroups(a: array<User>) returns (sorted: seq<User>)
    ensures sorted == ByTeam(a[..])
  {
    var blue, other, red := [], [], [];
    var i := 0;
    while i < a.Length
      invariant 0 <= i <= a.Length
      invariant blue == OfTeam(a[..i], Blue)
      invariant other == OfTeam(a[..i], Other)
      invariant red == OfTeam(a[..i], Red)
    {
      var u := a[i];
      assert a[..i + 1] == a[..i] + [u];
      OfTeamSnoc(a[..i], u, Blue);
      OfTeamSnoc(a[..i], u, Other);
      OfTeamSnoc(a[..i], u, Red);
      if u.team == Blue {
        blue := blue + [u];
      } else if u.team == Other {
        other := other + [u];
      } else {
        red := red + [u];
      }
      i := i + 1;
    }
    assert a[..a.Length] == a[..];
    sorted := blue + other + red;
  }

  /**
   * `users.sort((a, b) => a.team.localeCompare(b.team))`: the array is sorted
   * in place, stably, by team.
   */
  method SortByTeam(a: array<User>)
    modifies a
    ensures a[..] == ByTeam(old(a[..]))
  {
    var sorted := TeamGroups(a);
    ByTeamPermutation(a[..]);
    var i := 0;
    while i < a.Length
      invariant 0 <= i <= a.Length
      invariant forall k :: 0 <= k < i ==> a[k] == sorted[k]
    {
      a[i] := sorted[i];
      i := i + 1;
    }
  }

  // ---------------------------------------------------------------------
  // The list `Object.values(data.users)` starts from

  lemma {:induction false} HasLeast(keys: set<nat>) returns (least: nat)
    requires keys != {}
    ensures least in keys && forall j :: j in keys ==> least <= j
  {
    var x :| x in keys;
    var rest := keys - {x};
    if rest == {} {
      assert keys == {x};
      least := x;
    } else {
      var m := HasLeast(rest);
      assert keys == rest + {x};
      least := if x < m then x else m;
    }
  }

  lemma LeastExists(keys: set<nat>)
    requires keys != {}
    ensures exists k :: k in keys && forall j :: j in keys ==> k <= j
  {
    var least := HasLeast(keys);
  }

  function LeastKey(keys: set<nat>): (k: nat)
    requires keys != {}
    ensures k in keys && forall j :: j in keys ==> k <= j
  {
    LeastExists(keys);
    var k :| k in keys && forall j :: j in keys ==> k <= j;
    k
  }

  /** The keys in ascending order. */
  function SortedKeys(keys: set<nat>): (ks: seq<nat>)
    ensures |ks| == |keys|
    ensures forall k :: k in ks <==> k in keys
    ensures forall i, j :: 0 <= i < j < |ks| ==> ks[i] < ks[j]
    decreases |keys|
  {
    if keys == {} then []
    else
      var m := LeastKey(keys);
      var rest := SortedKeys(keys - {m});
      PrependLeast(m, keys, rest);
      [m] + rest
  }

  lemma PrependLeast(m: nat, keys: set<nat>, rest: seq<nat>)
    requires m in keys && forall j :: j in keys ==> m <= j
    requires |rest| == |keys - {m}|
    requires forall k :: k in rest <==> k in keys - {m}
    requires forall i, j :: 0 <= i < j < |rest| ==> rest[i] < rest[j]
    ensures |[m] + rest| == |keys|
    ensures forall k :: k in [m] + rest <==> k in keys
    ensures forall i, j :: 0 <= i < j < |[m] + rest| ==> ([m] + rest)[i] < ([m] + rest)[j]
  {
    assert forall i :: 0 <= i < |rest| ==> rest[i] in keys - {m};
  }

  /**
   * `Object.values(data.users)`: the users in ascending order of their key,
   * the order JavaScript enumerates integer-like property names in.
   */
  function UserList(users: map<nat, User>): (list: seq<User>)
    ensures |list| == |users|
    ensures forall i :: 0 <= i < |list| ==> list[i] in users.Values
    ensures forall k :: k in users ==> users[k] in list
  {
    var ks := SortedKeys(users.Keys);
    var list := seq(|ks|, i requires 0 <= i < |ks| => users[ks[i]]);
    ListHoldsEveryUser(users, ks, list);
    list
  }

  /** The i-th user of the list is the one under the i-th smallest key. */
  lemma UserListInKeyOrder(users: map<nat, User>)
    ensures var ks := SortedKeys(users.Keys);
      |UserList(users)| == |ks| && forall i :: 0 <= i < |ks| ==> UserList(users)[i] == users[ks[i]]
  {
  }

  lemma ListHoldsEveryUser(users: map<nat, User>, ks: seq<nat>, list: seq<User>)
    requires forall k :: k in ks <==> k in users
    requires |list| == |ks| && forall i :: 0 <= i < |ks| ==> list[i] == users[ks[i]]
    ensures forall i :: 0 <= i < |list| ==> list[i] in users.Values
    ensures forall k :: k in users ==> users[k] in list
  {
    forall k | k in users
      ensures users[k] in list
    {
      var i :| 0 <= i < |ks| && ks[i] == k;
      assert list[i] == users[k];
    }
  }

  /** The Players tab's order: the user list sorted in place by team. */
  method PlayerOrder(users: map<nat, User>) returns (order: seq<User>)
    ensures order == ByTeam(UserList(users))
    ensures |order| == |users|
  {
    order := SortedCopy(UserList(users));
  }

  /** Copies the list into a fresh array and sorts that array in place. */
  method SortedCopy(list: seq<User>) returns (order: seq<User>)
    ensures order == ByTeam(list)
    ensures |order| == |list|
  {
    var a := new User[|list|](i requires 0 <= i < |list| => list[i]);
    assert a[..] == list;
    SortByTeam(a);
    order := a[..];
    ByTeamPermutation(list);
  }

}
