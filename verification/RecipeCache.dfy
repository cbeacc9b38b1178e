/**
 The client's recipe caches and their refresh: an overlay of the results that succeeded, whatever fails and whenever the
 time budget runs out.
 */
module RecipeCache {
  import opened Prelude

  const FIRST_RECIPE := 200
  const LAST_RECIPE := 223
  const DIRECTKEY_OFFSET := 302
  const DIRECTKEY_PROFILE_MULTIPLIER := 10
  const CATEGORIES := 7
  const MAX_PROFILE := 8

  datatype MachineType = BaristaT | BaristaTs

  /** A cached recipe: one of the built-in ones, or a DirectKey category of a profile. */
  datatype Slot = Base(id: int) | Direct(profile: int, category: int)

  predicate IsRecipeId(id: int) {
    FIRST_RECIPE <= id <= LAST_RECIPE
  }

  predicate IsTsOnly(id: int) {
    210 <= id <= 212
  }

  function GetDirectkeyId(profile: int, category: int): int {
    DIRECTKEY_OFFSET + profile * DIRECTKEY_PROFILE_MULTIPLIER + category
  }

  function GetUserProfileCount(machine: Option<MachineType>): nat {
    if machine == Some(BaristaT) then 4 else 8
  }

  /** The recipe ids of a machine, in order; only the T model lacks three of them. */
  function GetAvailableRecipes(machine: Option<MachineType>): (ids: seq<int>)
    ensures forall i, j | 0 <= i < j < |ids| :: ids[i] < ids[j]
    ensures forall id :: id in ids <==> IsRecipeId(id) && (machine == Some(BaristaT) ==> !IsTsOnly(id))
  {
    var all := seq(24, i => FIRST_RECIPE + i);
    assert forall id :: IsRecipeId(id) ==> all[id - FIRST_RECIPE] == id;
    if machine != Some(BaristaT) then all
    else
      var ids := seq(21, i => if i < 10 then FIRST_RECIPE + i else FIRST_RECIPE + i + 3);
      assert forall id :: IsRecipeId(id) && id < 210 ==> ids[id - 200] == id;
      assert forall id :: IsRecipeId(id) && id > 212 ==> ids[id - 203] == id;
      ids
  }

  // ----- the caches -----

  datatype Cache<R> = Cache(base: map<int, R>, direct: map<int, map<int, R>>, generation: nat)

  function Lookup<R>(c: Cache<R>, slot: Slot): Option<R> {
    match slot
    case Base(id) => if id in c.base then Some(c.base[id]) else None
    case Direct(p, k) => if p in c.direct && k in c.direct[p] then Some(c.direct[p][k]) else None
  }

  function Put<R>(c: Cache<R>, slot: Slot, recipe: R): Cache<R> {
    match slot
    case Base(id) => c.(base := c.base[id := recipe])
    case Direct(p, k) => c.(direct := c.direct[p := (if p in c.direct then c.direct[p] else map[])[k := recipe]])
  }

  lemma PutIsExact<R>(c: Cache<R>, slot: Slot, recipe: R, other: Slot)
    ensures Lookup(Put(c, slot, recipe), other) == if other == slot then Some(recipe) else Lookup(c, other)
  {
  }

  // ----- one read -----

  /** One attempt: whether the client is still connected, and what the read gives when it is. */
  datatype Try<R> = Try(connected: bool, recipe: Option<R>)

  /** The first recipe among at most n attempts made while connected. */
  function FirstSuccess<R>(tries: seq<Try<R>>, n: int): Option<R> {
    if n <= 0 || tries == [] || !tries[0].connected then None
    else if tries[0].recipe.Some? then tries[0].recipe
    else FirstSuccess(tries[1..], n - 1)
  }

  /** A recipe is read exactly when one of the first n attempts gave it, with the link up at each and nothing before. */
  lemma {:induction false} FirstSuccessIff<R>(tries: seq<Try<R>>, n: int, r: R)
    ensures FirstSuccess(tries, n) == Some(r) <==> exists k :: SucceedsAt(tries, n, k, r)
    decreases |tries|
  {
    if n > 0 && tries != [] && tries[0].connected && tries[0].recipe.None? {
      var rest, m := tries[1..], n - 1;
      FirstSuccessIff(rest, m, r);
      if k :| SucceedsAt(rest, m, k, r) {
        assert SucceedsAt(tries, n, k + 1, r);
      }
      if k :| SucceedsAt(tries, n, k, r) {
        assert SucceedsAt(rest, m, k - 1, r);
      }
    } else if FirstSuccess(tries, n) == Some(r) {
      assert SucceedsAt(tries, n, 0, r);
    }
  }

  ghost predicate SucceedsAt<R>(tries: seq<Try<R>>, n: int, k: int, r: R) {
    && 0 <= k < |tries| && k < n
    && tries[k].connected && tries[k].recipe == Some(r)
    && forall j | 0 <= j < k :: tries[j].connected && tries[j].recipe.None?
  }

  /** As many as asked for within the bound, and at least one. */
  function Attempts(attempts: int, retries: int): (n: int)
    ensures n >= 1 && n in {attempts, retries, 1}
    ensures if attempts >= 1 && retries >= 1 then n <= attempts && n <= retries else n == 1
  {
    var bound := if attempts < retries then attempts else retries;
    if bound < 1 then 1 else bound
  }

  // ----- a refresh -----

  function SlotCount(machine: Option<MachineType>): nat {
    |GetAvailableRecipes(machine)| + (GetUserProfileCount(machine) + 1) * CATEGORIES
  }

  /** The slots of a refresh in the order they are read: the recipes, then every category of every profile. */
  function SlotAt(machine: Option<MachineType>, i: nat): Slot
    requires i < SlotCount(machine)
  {
    var ids := GetAvailableRecipes(machine);
    if i < |ids| then Base(ids[i]) else Direct((i - |ids|) / CATEGORIES, (i - |ids|) % CATEGORIES)
  }

  /** A refresh reads exactly these slots: the recipes of the model, and seven categories of each of its profiles, four on a
      T and eight on any other, and of the profile without a user. */
  lemma SlotsAreExactly(machine: Option<MachineType>, slot: Slot)
    ensures (exists i: nat :: i < SlotCount(machine) && SlotAt(machine, i) == slot) <==>
            match slot
            case Base(id) => IsRecipeId(id) && (machine == Some(BaristaT) ==> !IsTsOnly(id))
            case Direct(p, k) => 0 <= p <= (if machine == Some(BaristaT) then 4 else 8) && 0 <= k < 7
  {
    var ids := GetAvailableRecipes(machine);
    match slot {
      case Base(id) =>
        if id in ids {
          var i :| 0 <= i < |ids| && ids[i] == id;
          assert SlotAt(machine, i) == slot;
        }
      case Direct(p, k) =>
        if 0 <= p <= GetUserProfileCount(machine) && 0 <= k < CATEGORIES {
          DirectSlotIsRead(machine, p, k);
        }
    }
  }

  lemma DirectSlotIsRead(machine: Option<MachineType>, p: int, k: int)
    requires 0 <= p <= GetUserProfileCount(machine) && 0 <= k < CATEGORIES
    ensures var i := |GetAvailableRecipes(machine)| + p * CATEGORIES + k;
            i < SlotCount(machine) && SlotAt(machine, i) == Direct(p, k)
  {
  }

  lemma SlotsAreDistinct(machine: Option<MachineType>, i: nat, j: nat)
    requires i < SlotCount(machine) && j < SlotCount(machine) && SlotAt(machine, i) == SlotAt(machine, j)
    ensures i == j
  {
    var n := |GetAvailableRecipes(machine)|;
    if n <= i && n <= j {
      assert i - n == CATEGORIES * ((i - n) / CATEGORIES) + (i - n) % CATEGORIES;
      assert j - n == CATEGORIES * ((j - n) / CATEGORIES) + (j - n) % CATEGORIES;
    }
  }

  /** The caches after the first k slots were read; `results[i]` is what slot i gave. */
  function Overlay<R>(c: Cache<R>, machine: Option<MachineType>, results: seq<Option<R>>, k: nat): Cache<R>
    requires k <= |results| <= SlotCount(machine)
  {
    if k == 0 then c
    else
      var before := Overlay(c, machine, results, k - 1);
      if results[k - 1].None? then before
      else Put(before, SlotAt(machine, k - 1), results[k - 1].value).(generation := before.generation + 1)
  }

  function Fresh<R>(results: seq<Option<R>>, a: nat, b: nat): nat
    requires a <= b <= |results|
  {
    if a == b then 0 else Fresh(results, a, b - 1) + if results[b - 1].Some? then 1 else 0
  }

  /** Each slot ends with its fresh recipe when its read succeeded and with its previous value otherwise, other slots are
      untouched, and the generation counts exactly the successful results. */
  lemma {:induction false} OverlayIsExact<R>(
      c: Cache<R>, machine: Option<MachineType>, results: seq<Option<R>>, k: nat, slot: Slot)
    requires k <= |results| <= SlotCount(machine)
    ensures (forall i: nat | i < k :: SlotAt(machine, i) != slot || results[i].None?) ==>
              Lookup(Overlay(c, machine, results, k), slot) == Lookup(c, slot)
    ensures forall i: nat | i < k && SlotAt(machine, i) == slot && results[i].Some? ::
              Lookup(Overlay(c, machine, results, k), slot) == results[i]
    ensures Overlay(c, machine, results, k).generation == c.generation + Fresh(results, 0, k)
  {
    if k > 0 {
      OverlayIsExact(c, machine, results, k - 1, slot);
      if results[k - 1].Some? {
        PutIsExact(Overlay(c, machine, results, k - 1), SlotAt(machine, k - 1), results[k - 1].value, slot);
      }
      forall i: nat | i < k && SlotAt(machine, i) == slot && SlotAt(machine, k - 1) == slot ensures i == k - 1 {
        SlotsAreDistinct(machine, i, k - 1);
      }
    }
  }

  lemma {:induction false} AllFresh<R>(results: seq<Option<R>>, a: nat, b: nat)
    requires a <= b <= |results|
    ensures Fresh(results, a, b) <= b - a
    ensures Fresh(results, a, b) == b - a <==> forall i | a <= i < b :: results[i].Some?
  {
    if a < b {
      AllFresh(results, a, b - 1);
    }
  }

  /** The count of a report is the number of successful reads. */
  lemma {:induction false} FreshIsCardinality<R>(results: seq<Option<R>>, a: nat, b: nat)
    requires a <= b <= |results|
    ensures Fresh(results, a, b) == |Successes(results, a, b)|
  {
    if a < b {
      FreshIsCardinality(results, a, b - 1);
      assert Successes(results, a, b) ==
             Successes(results, a, b - 1) + if results[b - 1].Some? then {b - 1} else {};
    } else {
      assert Successes(results, a, b) == {};
    }
  }

  ghost function Successes<R>(results: seq<Option<R>>, a: nat, b: nat): set<int>
    requires a <= b <= |results|
  {
    set i | a <= i < b && results[i].Some?
  }

  datatype Status = Status(
    baseUpdated: nat, baseExpected: nat, directkeyUpdated: nat, directkeyExpected: nat, complete: bool)

  function Results<R>(scripts: seq<seq<Try<R>>>, retries: int): (results: seq<Option<R>>)
    ensures |results| == |scripts|
  {
    seq(|scripts|, i requires 0 <= i < |scripts| => FirstSuccess(scripts[i], Attempts(retries, retries)))
  }

  /** A slot gives a recipe exactly when one of its attempts does, of which there are as many as the retries, and at least
      one. */
  lemma ResultIff<R>(scripts: seq<seq<Try<R>>>, retries: int, n: int, i: nat, r: R)
    requires i < |scripts| && n == if retries < 1 then 1 else retries
    ensures Results(scripts, retries)[i] == Some(r) <==> exists k :: SucceedsAt(scripts[i], n, k, r)
  {
    FirstSuccessIff(scripts[i], n, r);
  }

  /** What a refresh reports: the successful reads of each kind, and whether every expected slot was read. */
  ghost predicate Reports<R>(status: Status, machine: Option<MachineType>, results: seq<Option<R>>)
    requires |results| <= SlotCount(machine)
  {
    var n := |GetAvailableRecipes(machine)|;
    var split := if |results| < n then |results| else n;
    && status.baseUpdated == Fresh(results, 0, split)
    && status.directkeyUpdated == Fresh(results, split, |results|)
    && status.baseExpected == n
    && status.directkeyExpected == SlotCount(machine) - n
    && (status.complete <==> |results| == SlotCount(machine) && forall i | 0 <= i < |results| :: results[i].Some?)
  }

  lemma CompleteIff<R>(machine: Option<MachineType>, results: seq<Option<R>>, split: nat)
    requires |results| <= SlotCount(machine)
    requires var n := |GetAvailableRecipes(machine)|; split == if |results| < n then |results| else n
    ensures var n := |GetAvailableRecipes(machine)|;
            Fresh(results, 0, split) == n && Fresh(results, split, |results|) == SlotCount(machine) - n <==>
            |results| == SlotCount(machine) && forall i | 0 <= i < |results| :: results[i].Some?
  {
    AllFresh(results, 0, split);
    AllFresh(results, split, |results|);
  }

  // ----- the client -----

  class BleRecipes<R(0)> {
    var baseRecipes: map<int, R>
    var directkeyRecipes: map<int, map<int, R>>
    var generation: nat

    ghost function State(): Cache<R>
      reads this
    {
      Cache(baseRecipes, directkeyRecipes, generation)
    }

    method StoreBaseRecipe(id: int, recipe: R)
      modifies this
      ensures State() == Put(old(State()), Base(id), recipe).(generation := old(generation) + 1)
    {
      baseRecipes := baseRecipes[id := recipe];
      generation := generation + 1;
    }

    method StoreDirectkeyRecipe(profile: int, category: int, recipe: R)
      modifies `directkeyRecipes
      ensures State() == Put(old(State()), Direct(profile, category), recipe)
    {
      if profile !in directkeyRecipes {
        directkeyRecipes := directkeyRecipes[profile := map[]];
      }
      directkeyRecipes := directkeyRecipes[profile := directkeyRecipes[profile][category := recipe]];
    }

    /** The refresh subscriber: an id updates its own base slot, its own DirectKey slot, or nothing. */
    method StoreRefreshedRecipe(id: int, recipe: R)
      modifies this
      ensures IsRecipeId(id) ==> State() == Put(old(State()), Base(id), recipe).(generation := old(generation) + 1)
      ensures !IsRecipeId(id) ==>
                forall p, k | 0 <= p <= MAX_PROFILE && 0 <= k < CATEGORIES && id == GetDirectkeyId(p, k) ::
                  State() == Put(old(State()), Direct(p, k), recipe)
      ensures !IsRecipeId(id) &&
              !(exists p, k :: 0 <= p <= MAX_PROFILE && 0 <= k < CATEGORIES && id == GetDirectkeyId(p, k)) ==>
                State() == old(State())
    {
      if IsRecipeId(id) {
        StoreBaseRecipe(id, recipe);
        return;
      }
      var offset := id - DIRECTKEY_OFFSET;
      if offset < 0 {
        return;
      }
      var profile, category := offset / DIRECTKEY_PROFILE_MULTIPLIER, offset % DIRECTKEY_PROFILE_MULTIPLIER;
      assert id == GetDirectkeyId(profile, category);
      if profile > MAX_PROFILE || category > CATEGORIES - 1 {
        return;
      }
      StoreDirectkeyRecipe(profile, category, recipe);
    }

    method ReadRecipeWithRetries(tries: seq<Try<R>>, attempts: int, retries: int) returns (recipe: Option<R>)
      ensures recipe == FirstSuccess(tries, Attempts(attempts, retries))
    {
      var n := Attempts(attempts, retries);
      var i := 0;
      while i < n && i < |tries|
        invariant 0 <= i <= n && i <= |tries|
        invariant FirstSuccess(tries, n) == FirstSuccess(tries[i..], n - i)
      {
        if !tries[i].connected {
          break;
        }
        if tries[i].recipe.Some? {
          return tries[i].recipe;
        }
        i := i + 1;
      }
      return None;
    }

    /** Reads slot after slot until the scripts end, which is where the time budget struck if slots are left. */
    method RefreshRecipeCache(machine: Option<MachineType>, ready: bool, scripts: seq<seq<Try<R>>>, retries: int)
      returns (status: Option<Status>)
      requires |scripts| <= SlotCount(machine)
      modifies this
      ensures status.Some? <==> ready
      ensures !ready ==> State() == old(State())
      ensures ready ==> Reports(status.value, machine, Results(scripts, retries))
      ensures ready ==> State() == Overlay(old(State()), machine, Results(scripts, retries), |scripts|)
    {
      if !ready {
        return None;
      }
      var baseExpected := |GetAvailableRecipes(machine)|;
      var directkeyExpected := (GetUserProfileCount(machine) + 1) * CATEGORIES;
      var split := if |scripts| < baseExpected then |scripts| else baseExpected;
      var baseUpdated := RefreshBaseRecipes(machine, scripts, retries, split);
      var directkeyUpdated := RefreshDirectkeyRecipes(machine, scripts, retries, split, old(State()));
      CompleteIff(machine, Results(scripts, retries), split);
      var complete := baseUpdated == baseExpected && directkeyUpdated == directkeyExpected;
      status := Some(Status(baseUpdated, baseExpected, directkeyUpdated, directkeyExpected, complete));
    }

    method RefreshBaseRecipes(machine: Option<MachineType>, scripts: seq<seq<Try<R>>>, retries: int, split: nat)
      returns (updated: nat)
      requires split <= |scripts| <= SlotCount(machine) && split <= |GetAvailableRecipes(machine)|
      modifies this
      ensures updated == Fresh(Results(scripts, retries), 0, split)
      ensures State() == Overlay(old(State()), machine, Results(scripts, retries), split)
    {
      var ids := GetAvailableRecipes(machine);
      updated := 0;
      for i := 0 to split
        invariant updated == Fresh(Results(scripts, retries), 0, i)
        invariant State() == Overlay(old(State()), machine, Results(scripts, retries), i)
      {
        var recipe := ReadRecipeWithRetries(scripts[i], retries, retries);
        if recipe.Some? {
          StoreRefreshedRecipe(ids[i], recipe.value);
          updated := updated + 1;
        }
      }
    }

    method RefreshDirectkeyRecipes(
        machine: Option<MachineType>, scripts: seq<seq<Try<R>>>, retries: int, split: nat, ghost before: Cache<R>)
      returns (updated: nat)
      requires split <= |scripts| <= SlotCount(machine)
      requires |GetAvailableRecipes(machine)| <= split || split == |scripts|
      requires State() == Overlay(before, machine, Results(scripts, retries), split)
      modifies this
      ensures updated == Fresh(Results(scripts, retries), split, |scripts|)
      ensures State() == Overlay(before, machine, Results(scripts, retries), |scripts|)
    {
      var base := |GetAvailableRecipes(machine)|;
      updated := 0;
      for i := split to |scripts|
        invariant updated == Fresh(Results(scripts, retries), split, i)
        invariant State() == Overlay(before, machine, Results(scripts, retries), i)
      {
        var recipe := ReadRecipeWithRetries(scripts[i], retries, retries);
        if recipe.Some? {
          StoreDirectkeyRecipe((i - base) / CATEGORIES, (i - base) % CATEGORIES, recipe.value);
          updated := updated + 1;
          generation := generation + 1;
        }
      }
    }
  }
}
