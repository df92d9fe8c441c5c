/** How the machine and the languages are divided among the workers: core-major order, slices,
    language groups, and what counts as naming a language. */
module Fleet {
  import opened Multiplying

  // ------------------------------------------------------------- core-major order

  /** One logical processor's core: its package and the core's number there. */
  datatype Core = Core(package: int, core: int)

  /** The first processor on the same core as processor `j`. */
  function First(keys: seq<Core>, j: nat): (i: nat)
    requires j < |keys|
    ensures i <= j && keys[i] == keys[j] && forall m :: 0 <= m < i ==> keys[m] != keys[j]
  {
    FirstFrom(keys, j, 0)
  }

  function FirstFrom(keys: seq<Core>, j: nat, i: nat): (r: nat)
    requires i <= j < |keys| && forall m :: 0 <= m < i ==> keys[m] != keys[j]
    ensures i <= r <= j && keys[r] == keys[j] && forall m :: 0 <= m < r ==> keys[m] != keys[j]
    decreases j - i
  {
    if keys[i] == keys[j] then i else FirstFrom(keys, j, i + 1)
  }

  function Firsts(keys: seq<Core>): (firsts: seq<nat>)
    ensures |firsts| == |keys|
  {
    seq(|keys|, j requires 0 <= j < |keys| => First(keys, j))
  }

  /** Cores in the order of their first processor, a core's processors in their own order. */
  ghost predicate CoreMajor(firsts: seq<nat>, order: seq<nat>) {
    && (forall a :: 0 <= a < |order| ==> order[a] < |firsts|)
    && (forall a, b :: 0 <= a < b < |order| ==>
         firsts[order[a]] < firsts[order[b]] || (firsts[order[a]] == firsts[order[b]] && order[a] < order[b]))
  }

  /** So all of one core's processors stand together. */
  lemma CoresTogether(keys: seq<Core>, order: seq<nat>, a: nat, b: nat, c: nat)
    requires CoreMajor(Firsts(keys), order) && a < b < c < |order| && keys[order[a]] == keys[order[c]]
    ensures keys[order[b]] == keys[order[a]]
  {
    assert First(keys, order[a]) == First(keys, order[c]);
    assert First(keys, order[a]) <= First(keys, order[b]) <= First(keys, order[c]);
  }

  /** Exactly the processors of the cores that begin before `i`, and of core `i` those before `j`. */
  ghost predicate Lists(firsts: seq<nat>, order: seq<nat>, i: nat, j: nat) {
    && (forall a :: 0 <= a < |order| ==>
         order[a] < |firsts| && (firsts[order[a]] < i || (firsts[order[a]] == i && order[a] < j)))
    && (forall m: nat :: m < |firsts| && (firsts[m] < i || (firsts[m] == i && m < j)) ==> m in order)
  }

  ghost predicate Distinct(order: seq<nat>) {
    forall a, b :: 0 <= a < b < |order| ==> order[a] != order[b]
  }

  function Elements(order: seq<nat>): (s: set<nat>)
    ensures forall x :: x in s <==> x in order
  {
    if order == [] then {} else Elements(order[..|order| - 1]) + {order[|order| - 1]}
  }

  lemma {:induction false} ElementsSize(order: seq<nat>)
    requires Distinct(order)
    ensures |Elements(order)| == |order|
  {
    if order != [] {
      ElementsSize(order[..|order| - 1]);
    }
  }

  function Range(n: nat): (s: set<nat>)
    ensures forall j: nat :: j in s <==> j < n
  {
    if n == 0 then {} else Range(n - 1) + {n - 1}
  }

  lemma {:induction false} RangeSize(n: nat)
    ensures |Range(n)| == n
  {
    if n > 0 {
      RangeSize(n - 1);
    }
  }

  /** Different numbers that are all the numbers below `n` are `n` of them. */
  lemma AllOfThem(order: seq<nat>, n: nat)
    requires Distinct(order) && forall a :: 0 <= a < |order| ==> order[a] < n
    requires forall j: nat :: j < n ==> j in order
    ensures |order| == n
  {
    ElementsSize(order);
    RangeSize(n);
    assert Elements(order) == Range(n);
  }

  lemma AppendOne(firsts: seq<nat>, order: seq<nat>, i: nat, j: nat)
    requires CoreMajor(firsts, order) && Lists(firsts, order, i, j) && j < |firsts| && firsts[j] == i
    ensures CoreMajor(firsts, order + [j]) && Lists(firsts, order + [j], i, j + 1)
  {
    var longer := order + [j];
    forall m: nat | m < |firsts| && (firsts[m] < i || (firsts[m] == i && m < j + 1))
      ensures m in longer
    {
      if m != j {
        assert m in order;
      }
    }
  }

  lemma SkipOne(firsts: seq<nat>, order: seq<nat>, i: nat, j: nat)
    requires Lists(firsts, order, i, j) && j < |firsts| && firsts[j] != i
    ensures Lists(firsts, order, i, j + 1)
  {
  }

  lemma NextCore(firsts: seq<nat>, order: seq<nat>, i: nat, j: nat)
    requires Lists(firsts, order, i, j) && j == |firsts|
    ensures Lists(firsts, order, i + 1, 0)
  {
  }

  lemma FirstsSay(keys: seq<Core>, i: nat, j: nat)
    requires i < |keys| && j < |keys|
    ensures Firsts(keys)[i] == i ==> (keys[j] == keys[i] <==> Firsts(keys)[j] == i)
    ensures Firsts(keys)[j] <= j
  {
  }

  /** Processor `i`, which begins a core, and the others of that core after it. */
  method AppendCore(keys: seq<Core>, order: seq<nat>, i: nat) returns (longer: seq<nat>)
    requires i < |keys| && Firsts(keys)[i] == i
    requires CoreMajor(Firsts(keys), order) && Lists(Firsts(keys), order, i, 0)
    ensures CoreMajor(Firsts(keys), longer) && Lists(Firsts(keys), longer, i + 1, 0)
  {
    ghost var firsts := Firsts(keys);
    NoneBefore(keys, order, i);
    AppendOne(firsts, order, i, i);
    hide Firsts, CoreMajor, Lists;
    longer := order + [i];
    for j := i + 1 to |keys|
      invariant CoreMajor(firsts, longer) && Lists(firsts, longer, i, j)
    {
      FirstsSay(keys, i, j);
      if keys[j] == keys[i] {
        AppendOne(firsts, longer, i, j);
        longer := longer + [j];
      } else {
        SkipOne(firsts, longer, i, j);
      }
    }
    NextCore(firsts, longer, i, |keys|);
  }

  lemma NoneBefore(keys: seq<Core>, order: seq<nat>, i: nat)
    requires i < |keys| && Lists(Firsts(keys), order, i, 0)
    ensures Lists(Firsts(keys), order, i, i)
  {
    forall m: nat | m < i
      ensures Firsts(keys)[m] != i
    {
      FirstsSay(keys, i, m);
    }
    hide Firsts;
  }

  lemma NoCore(firsts: seq<nat>, order: seq<nat>, i: nat)
    requires Lists(firsts, order, i, 0) && forall m: nat :: m < |firsts| ==> firsts[m] != i
    ensures Lists(firsts, order, i + 1, 0)
  {
  }

  lemma NotAFirst(keys: seq<Core>, i: nat)
    requires i < |keys| && First(keys, i) < i
    ensures forall m: nat :: m < |keys| ==> Firsts(keys)[m] != i
  {
  }

  lemma Complete(firsts: seq<nat>, order: seq<nat>)
    requires CoreMajor(firsts, order) && Lists(firsts, order, |firsts|, 0)
    requires forall m: nat :: m < |firsts| ==> firsts[m] <= m
    ensures Distinct(order) && |order| == |firsts|
  {
    AllOfThem(order, |firsts|);
  }

  /** `order_core_major`: it fails only when some processor's core cannot be read (a negative
      number) or there is no memory, and then changes nothing; otherwise the processors are
      rearranged core by core. */
  method OrderCoreMajor(cpus: array<int>, keys: seq<Core>, memory: bool)
    returns (ok: bool, ghost order: seq<nat>)
    requires |keys| == cpus.Length
    modifies cpus
    ensures ok <==> memory && forall i :: 0 <= i < |keys| ==> keys[i].package >= 0 && keys[i].core >= 0
    ensures !ok ==> cpus[..] == old(cpus[..])
    ensures ok ==> |order| == cpus.Length && CoreMajor(Firsts(keys), order) && Distinct(order)
    ensures ok ==> forall a :: 0 <= a < cpus.Length ==> cpus[a] == old(cpus[..])[order[a]]
  {
    order := [];
    if !memory {
      return false, [];
    }
    for i := 0 to |keys|
      invariant forall m :: 0 <= m < i ==> keys[m].package >= 0 && keys[m].core >= 0
    {
      if keys[i].package < 0 || keys[i].core < 0 {
        return false, [];
      }
    }
    var places: seq<nat> := [];
    for i := 0 to |keys|
      invariant CoreMajor(Firsts(keys), places) && Lists(Firsts(keys), places, i, 0)
      invariant cpus[..] == old(cpus[..])
    {
      var seen := Seen(keys, i);
      if seen {
        NotAFirst(keys, i);
        NoCore(Firsts(keys), places, i);
      } else {
        places := AppendCore(keys, places, i);
      }
    }
    order := places;
    forall m: nat | m < |keys|
      ensures Firsts(keys)[m] <= m
    {
      FirstsSay(keys, m, m);
    }
    Complete(Firsts(keys), places);
    Rearrange(cpus, places);
    ok := true;
  }

  method Rearrange(cpus: array<int>, order: seq<nat>)
    requires |order| == cpus.Length && forall a :: 0 <= a < |order| ==> order[a] < cpus.Length
    modifies cpus
    ensures forall a :: 0 <= a < cpus.Length ==> cpus[a] == old(cpus[..])[order[a]]
  {
    ghost var was := cpus[..];
    var out := new int[cpus.Length](_ => 0);
    for a := 0 to |order|
      invariant cpus[..] == was
      invariant forall b :: 0 <= b < a ==> out[b] == was[order[b]]
    {
      out[a] := cpus[order[a]];
    }
    ghost var mine := out[..];
    for a := 0 to cpus.Length
      invariant out[..] == mine
      invariant forall b :: 0 <= b < a ==> cpus[b] == mine[b]
    {
      cpus[a] := out[a];
    }
  }

  method Seen(keys: seq<Core>, i: nat) returns (seen: bool)
    requires i < |keys|
    ensures seen <==> First(keys, i) < i
  {
    for j := 0 to i
      invariant forall m :: 0 <= m < j ==> keys[m] != keys[i]
    {
      if keys[j] == keys[i] {
        return true;
      }
    }
    return false;
  }

  // ------------------------------------------------------------------------ slices

  /** Processors for each worker. */
  function Per(cpus: nat, workers: nat): nat
    requires workers > 0
  {
    if cpus / workers > 0 then cpus / workers else 1
  }

  /** How many the program takes for worker `i`, from `i * per` on. */
  function SliceLength(cpus: nat, per: nat, i: nat): int {
    if (i + 1) * per <= cpus then per else cpus - i * per
  }

  predicate SliceFits(cpus: nat, workers: nat, i: nat)
    requires workers > 0
  {
    var per := Per(cpus, workers);
    SliceLength(cpus, per, i) > 0 && i * per + SliceLength(cpus, per, i) <= cpus
  }

  /** Every worker has a slice of its own inside the machine exactly when there are no more
      workers than processors. */
  lemma SlicesFitIff(cpus: nat, workers: nat)
    requires workers > 0
    ensures (forall i: nat :: i < workers ==> SliceFits(cpus, workers, i)) <==> workers <= cpus
  {
    if workers <= cpus {
      forall i: nat | i < workers
        ensures SliceFits(cpus, workers, i)
      {
        Enough(cpus, workers);
        Monotone(i + 1, workers, Per(cpus, workers));
      }
    } else {
      TooMany(cpus, workers);
      assert !SliceFits(cpus, workers, workers - 1);
    }
  }

  lemma Enough(cpus: nat, workers: nat)
    requires 0 < workers <= cpus
    ensures Per(cpus, workers) > 0 && workers * Per(cpus, workers) <= cpus
  {
    var q := cpus / workers;
    assert cpus == q * workers + cpus % workers;
  }

  /** The slices are even: each worker has as many processors as the machine has for each, and fewer
      than one for each worker are left over. */
  lemma SlicesAreEven(cpus: nat, workers: nat, i: nat)
    requires 0 < workers <= cpus && i < workers
    ensures SliceLength(cpus, Per(cpus, workers), i) == Per(cpus, workers)
    ensures workers * Per(cpus, workers) <= cpus < workers * Per(cpus, workers) + workers
  {
    Enough(cpus, workers);
    Monotone(i + 1, workers, Per(cpus, workers));
    var q := cpus / workers;
    assert cpus == q * workers + cpus % workers;
  }

  lemma TooMany(cpus: nat, workers: nat)
    requires cpus < workers
    ensures Per(cpus, workers) == 1
  {
    var q := cpus / workers;
    assert cpus == q * workers + cpus % workers;
    if q > 0 {
      Monotone(1, q, workers);
      assert false;
    }
  }

  /** ... and no two slices share a processor. */
  lemma SlicesApart(per: nat, i: nat, j: nat, x: nat)
    requires i < j && i * per <= x < (i + 1) * per
    ensures x < j * per
  {
    Monotone(i + 1, j, per);
  }

  // --------------------------------------------------------------- language groups

  /** Where group `g`'s workers begin. */
  function GroupStart(workers: nat, groups: nat, g: nat): nat
    requires groups > 0
  {
    g * (workers / groups) + (if g < workers % groups then g else workers % groups)
  }

  lemma GroupBounds(workers: nat, groups: nat)
    requires 0 < groups <= workers
    ensures GroupStart(workers, groups, 0) == 0 && GroupStart(workers, groups, groups) == workers
    ensures workers / groups >= 1
  {
    var q := workers / groups;
    assert workers == q * groups + workers % groups;
  }

  lemma GroupSizes(workers: nat, groups: nat, g: nat)
    requires groups > 0
    ensures GroupStart(workers, groups, g + 1) ==
      GroupStart(workers, groups, g) + workers / groups + (if g < workers % groups then 1 else 0)
  {
    var q := workers / groups;
    assert (g + 1) * q == g * q + q;
  }

  lemma {:induction false} StartsAscend(workers: nat, groups: nat, a: nat, b: nat)
    requires groups > 0 && a <= b
    ensures GroupStart(workers, groups, a) <= GroupStart(workers, groups, b)
    decreases b
  {
    if a < b {
      GroupSizes(workers, groups, b - 1);
      StartsAscend(workers, groups, a, b - 1);
    }
  }

  /** Worker `i` is one of group `g`'s. */
  predicate InGroup(workers: nat, groups: nat, g: nat, i: nat)
    requires groups > 0
  {
    GroupStart(workers, groups, g) <= i < GroupStart(workers, groups, g + 1)
  }

  ghost predicate Assigned(workers: nat, groups: nat, langOf: seq<nat>, upTo: nat)
    requires groups > 0
  {
    && |langOf| == GroupStart(workers, groups, upTo)
    && (forall i: nat :: i < |langOf| ==> langOf[i] < upTo)
    && (forall i: nat, g: nat :: i < |langOf| && g < upTo ==> (langOf[i] == g <==> InGroup(workers, groups, g, i)))
  }

  lemma OneMoreGroup(workers: nat, groups: nat, before: seq<nat>, after: seq<nat>, g: nat)
    requires groups > 0 && Assigned(workers, groups, before, g) && before <= after
    requires |after| == GroupStart(workers, groups, g + 1)
    requires forall i :: |before| <= i < |after| ==> after[i] == g
    ensures Assigned(workers, groups, after, g + 1)
  {
    forall i: nat, h: nat | i < |after| && h < g + 1
      ensures after[i] == h <==> InGroup(workers, groups, h, i)
    {
      if h < g {
        StartsAscend(workers, groups, h + 1, g);
      }
      if i < |before| {
        assert after[i] == before[i];
      }
    }
    forall i: nat | i < |after|
      ensures after[i] < g + 1
    {
      if i < |before| {
        assert after[i] == before[i];
      }
    }
    hide GroupStart, InGroup;
  }

  /** Every group has a worker, and no group two more than another. */
  lemma GroupsAreEven(workers: nat, groups: nat, g: nat, h: nat)
    requires 0 < groups <= workers && g < groups && h < groups
    ensures var size := GroupStart(workers, groups, g + 1) - GroupStart(workers, groups, g);
      1 <= size <= GroupStart(workers, groups, h + 1) - GroupStart(workers, groups, h) + 1
  {
    GroupBounds(workers, groups);
    GroupSizes(workers, groups, g);
    GroupSizes(workers, groups, h);
    hide GroupStart;
  }

  /** The assignment of workers to groups: contiguous, and everyone assigned. Refused when there
      are more groups than workers. */
  method AssignGroups(workers: nat, groups: nat) returns (ok: bool, langOf: seq<nat>)
    requires groups > 0
    ensures ok <==> groups <= workers
    ensures ok ==> |langOf| == workers && Assigned(workers, groups, langOf, groups)
  {
    langOf := [];
    if groups > workers {
      return false, [];
    }
    GroupBounds(workers, groups);
    NoneAssigned(workers, groups);
    hide GroupStart, Assigned;
    var base, extra := workers / groups, workers % groups;
    var filled: seq<nat> := [];
    for g := 0 to groups
      invariant Assigned(workers, groups, filled, g) && |filled| == GroupStart(workers, groups, g)
    {
      GroupSizes(workers, groups, g);
      var n := base + (if g < extra then 1 else 0);
      ghost var before := filled;
      for k := 0 to n
        invariant |filled| == |before| + k && before <= filled
        invariant forall i :: |before| <= i < |filled| ==> filled[i] == g
      {
        filled := filled + [g];
      }
      OneMoreGroup(workers, groups, before, filled, g);
    }
    langOf := filled;
    ok := true;
  }

  lemma NoneAssigned(workers: nat, groups: nat)
    requires groups > 0
    ensures Assigned(workers, groups, [], 0) && GroupStart(workers, groups, 0) == 0
  {
  }

  // -------------------------------------------------------------- naming a language

  /** Letter case as the C library folds it. */
  type Fold = char -> char

  function Folded(fold: Fold, s: string): (r: string)
    ensures |r| == |s|
  {
    seq(|s|, i requires 0 <= i < |s| => fold(s[i]))
  }

  ghost predicate Same(fold: Fold, a: string, b: string) {
    Folded(fold, a) == Folded(fold, b)
  }

  ghost predicate Starts(fold: Fold, prefix: string, name: string) {
    Folded(fold, prefix) <= Folded(fold, name)
  }

  method CiEqual(fold: Fold, a: string, b: string) returns (same: bool)
    ensures same <==> Same(fold, a, b)
  {
    var i := 0;
    while i < |a| && i < |b|
      invariant 0 <= i <= |a| && i <= |b|
      invariant forall k :: 0 <= k < i ==> fold(a[k]) == fold(b[k])
    {
      if fold(a[i]) != fold(b[i]) {
        assert Folded(fold, a)[i] != Folded(fold, b)[i];
        return false;
      }
      i := i + 1;
    }
    same := i == |a| && i == |b|;
  }

  method CiPrefix(fold: Fold, prefix: string, name: string) returns (starts: bool)
    ensures starts <==> Starts(fold, prefix, name)
  {
    for i := 0 to |prefix|
      invariant i <= |name| && forall k :: 0 <= k < i ==> fold(prefix[k]) == fold(name[k])
    {
      if i == |name| {
        return false;
      }
      if fold(prefix[i]) != fold(name[i]) {
        assert Folded(fold, prefix)[i] != Folded(fold, name)[i];
        return false;
      }
    }
    return true;
  }

  datatype Name = Missing | Named(s: string)

  ghost predicate Exact(fold: Fold, names: seq<Name>, want: string, i: nat) {
    i < |names| && names[i].Named? && Same(fold, names[i].s, want)
  }

  ghost predicate Prefixed(fold: Fold, names: seq<Name>, want: string, i: nat) {
    i < |names| && names[i].Named? && Starts(fold, want, names[i].s)
  }

  /** What a match must be: the first exact name; failing that, when at least two letters are
      given, the only name they begin; -1 for none and -2 for several. */
  ghost predicate Matched(fold: Fold, names: seq<Name>, want: string, r: int) {
    if |want| == 0 then r == -1
    else if exists i :: Exact(fold, names, want, i) then
      r >= 0 && Exact(fold, names, want, r) && forall i: nat :: i < r ==> !Exact(fold, names, want, i)
    else if |want| < 2 then r == -1
    else if r >= 0 then Prefixed(fold, names, want, r) && forall i: nat :: Prefixed(fold, names, want, i) ==> i == r
    else if r == -1 then forall i: nat :: !Prefixed(fold, names, want, i)
    else r == -2 && exists i: nat, j: nat :: i < j && Prefixed(fold, names, want, i) && Prefixed(fold, names, want, j)
  }

  method LanguageMatch(fold: Fold, names: seq<Name>, want: string) returns (r: int)
    ensures Matched(fold, names, want, r)
  {
    hide Same, Starts;
    if |names| == 0 || |want| == 0 {
      return -1;
    }
    for i := 0 to |names|
      invariant forall k: nat :: k < i ==> !Exact(fold, names, want, k)
    {
      if names[i].Named? {
        var same := CiEqual(fold, names[i].s, want);
        if same {
          assert Exact(fold, names, want, i);
          return i;
        }
      }
    }
    assert forall k: nat :: !Exact(fold, names, want, k);
    if |want| < 2 {
      return -1;
    }
    var found := -1;
    for i := 0 to |names|
      invariant -1 <= found < i
      invariant found >= 0 ==> Prefixed(fold, names, want, found)
      invariant forall k: nat :: k < i && k != found ==> !Prefixed(fold, names, want, k)
    {
      if names[i].Named? {
        var starts := CiPrefix(fold, want, names[i].s);
        if starts {
          if found >= 0 {
            assert Prefixed(fold, names, want, found) && Prefixed(fold, names, want, i);
            return -2;
          }
          found := i;
        }
      }
    }
    return found;
  }

  /** Language safety: a request that the router sends to group `g`, matching it against every
      name of the fleet, is accepted by that group's workers, who match it against their one. */
  lemma WorkerAcceptsWhatRouterSends(fold: Fold, names: seq<Name>, want: string, g: nat, r: int)
    requires Matched(fold, names, want, g) && Matched(fold, [names[g]], want, r)
    requires g < |names|
    ensures r == 0
  {
    hide Same, Starts;
    var one := [names[g]];
    if Exact(fold, names, want, g) {
      assert Exact(fold, one, want, 0);
    } else {
      assert Prefixed(fold, names, want, g);
      assert Prefixed(fold, one, want, 0);
    }
  }

  /** The other way it depends on the fleet: what a worker accepts, the router sends to that
      worker's group exactly when no earlier group has the very name, and, if only the beginning
      of the name was given, no other name equals it or begins so. */
  lemma RouterSendsWhatWorkerAcceptsIff(fold: Fold, names: seq<Name>, want: string, g: nat, r: int)
    requires g < |names| && Matched(fold, [names[g]], want, 0) && Matched(fold, names, want, r)
    ensures r == g <==>
      if Exact(fold, names, want, g) then forall i: nat :: i < g ==> !Exact(fold, names, want, i)
      else forall i: nat :: i != g ==> !Exact(fold, names, want, i) && !Prefixed(fold, names, want, i)
  {
    hide Same, Starts;
    var one := [names[g]];
    if Exact(fold, one, want, 0) {
      assert Exact(fold, names, want, g);
    } else {
      assert Prefixed(fold, one, want, 0);
      assert Prefixed(fold, names, want, g);
    }
  }
}
