/**
 * The dependency manager of the `core` package: which fields a field depends on,
 * which fields depend on it, and the chain of later fields to regenerate once a
 * field changes, together with the validation that a chain regenerates each field
 * after the chain fields it depends on.
 */
module Dependency {
  import opened Wrappers
  import opened Lists
  import M = CorePromptModels

  /** The fields to regenerate, in order, starting with the one that changed. */
  datatype RegenerationChain = RegenerationChain(
    rootField: string,
    dependentFields: seq<string>,
    changedFields: set<string>,
    reason: map<string, set<string>>)

  /** `generation_order.index(field)` raising inside `create_regeneration_chain`. */
  datatype ChainError = RootNotInOrder(field: string)

  /** `get_field_dependencies`: the required and optional fields of the field's template. */
  function GetFieldDependencies(ps: M.PromptSet, f: string): (r: set<string>)
    ensures f in ps.prompts ==> r == ps.prompts[f].requiredFields + ps.prompts[f].optionalFields
    ensures f !in ps.prompts ==> r == {}
  {
    match M.GetPromptForField(ps, f)
    case None => {}
    case Some(p) => p.requiredFields + p.optionalFields
  }

  // ---------------------------------------------------------------- dependents

  /** The fields of the order, other than `f`, whose dependencies include `f`. */
  ghost function DependentsAmong(ps: M.PromptSet, order: seq<string>, f: string): set<string>
  {
    set g | g in order && g != f && f in GetFieldDependencies(ps, g)
  }

  /** `get_dependent_fields`: every other field of the order that depends on `f`, wherever it stands. */
  method GetDependentFields(ps: M.PromptSet, f: string) returns (r: set<string>)
    ensures r == DependentsAmong(ps, ps.generationOrder, f)
  {
    r := {};
    var i := 0;
    while i < |ps.generationOrder|
      invariant i <= |ps.generationOrder|
      invariant r == DependentsAmong(ps, ps.generationOrder[..i], f)
    {
      var other := ps.generationOrder[i];
      assert ps.generationOrder[..i + 1] == ps.generationOrder[..i] + [other];
      if other != f {
        var deps := GetFieldDependencies(ps, other);
        if f in deps {
          r := r + {other};
        }
      }
      i := i + 1;
    }
    assert ps.generationOrder[..i] == ps.generationOrder;
  }

  // ---------------------------------------------------------------- chain

  /** The chain and the reasons built so far. */
  datatype ChainState = ChainState(chain: seq<string>, reason: map<string, set<string>>)

  /** The loop of `create_regeneration_chain` over the fields `rest` that follow the root:
      a field joins when its dependencies meet the chain so far, with that meeting as reason. */
  function ChainOf(ps: M.PromptSet, root: string, rest: seq<string>): ChainState
  {
    if |rest| == 0 then ChainState([root], map[])
    else
      var s := ChainOf(ps, root, rest[..|rest| - 1]);
      var g := rest[|rest| - 1];
      var affected := GetFieldDependencies(ps, g) * Elems(s.chain);
      if affected != {} then ChainState(s.chain + [g], s.reason[g := affected]) else s
  }

  /** `create_regeneration_chain(field, changed_fields, prompt_set)`. */
  function ChainSpec(ps: M.PromptSet, root: string, changed: set<string>): (r: Result<RegenerationChain, ChainError>)
    ensures r.Failure? <==> root !in ps.generationOrder
    ensures r.Success? ==> r.value.rootField == root && r.value.changedFields == changed
  {
    match IndexOf(ps.generationOrder, root)
    case None => Failure(RootNotInOrder(root))
    case Some(i) =>
      var s := ChainOf(ps, root, ps.generationOrder[i + 1..]);
      Success(RegenerationChain(root, s.chain, changed, s.reason))
  }

  /** One pass of the loop of `create_regeneration_chain`: `rest[k]` joins the chain when
      its dependencies meet the fields already in it. */
  method VisitChainField(ps: M.PromptSet, root: string, rest: seq<string>, k: nat,
                         chain: seq<string>, reason: map<string, set<string>>, chainFields: set<string>)
    returns (chain': seq<string>, reason': map<string, set<string>>, chainFields': set<string>)
    requires k < |rest|
    requires ChainOf(ps, root, rest[..k]) == ChainState(chain, reason)
    requires chainFields == Elems(chain)
    ensures ChainOf(ps, root, rest[..k + 1]) == ChainState(chain', reason')
    ensures chainFields' == Elems(chain')
  {
    var current := rest[k];
    assert rest[..k + 1][..k] == rest[..k] && rest[..k + 1][k] == current;
    var deps := GetFieldDependencies(ps, current);
    var affected := deps * chainFields;
    if affected != {} {
      assert (chain + [current])[..|chain|] == chain;
      chain', reason', chainFields' := chain + [current], reason[current := affected], chainFields + {current};
    } else {
      chain', reason', chainFields' := chain, reason, chainFields;
    }
  }

  method CreateRegenerationChain(ps: M.PromptSet, root: string, changed: set<string>)
    returns (r: Result<RegenerationChain, ChainError>)
    ensures r == ChainSpec(ps, root, changed)
  {
    var chain := [root];
    var reason: map<string, set<string>> := map[];
    var chainFields := {root};
    var start := IndexOf(ps.generationOrder, root);
    if start.None? {
      return Failure(RootNotInOrder(root));
    }
    var rest := ps.generationOrder[start.value + 1..];
    var k := 0;
    assert Elems([root]) == {root} by {
      assert [root][..0] == [];
    }
    while k < |rest|
      invariant k <= |rest|
      invariant ChainOf(ps, root, rest[..k]) == ChainState(chain, reason)
      invariant chainFields == Elems(chain)
    {
      chain, reason, chainFields := VisitChainField(ps, root, rest, k, chain, reason, chainFields);
      k := k + 1;
    }
    assert rest[..k] == rest;
    r := Success(RegenerationChain(root, chain, changed, reason));
  }

  /** `xs` is obtained from `ys` by leaving elements out. */
  ghost predicate IsSubseq<T>(xs: seq<T>, ys: seq<T>)
    decreases |ys|
  {
    if |xs| == 0 then true
    else if |ys| == 0 then false
    else
      || (xs[|xs| - 1] == ys[|ys| - 1] && IsSubseq(xs[..|xs| - 1], ys[..|ys| - 1]))
      || IsSubseq(xs, ys[..|ys| - 1])
  }

  /** Whatever a subsequence holds, the sequence holds. */
  lemma {:induction false} SubseqElems<T>(xs: seq<T>, ys: seq<T>, x: T)
    requires IsSubseq(xs, ys) && x in xs
    ensures x in ys
    decreases |ys|
  {
    var xi, yi := xs[..|xs| - 1], ys[..|ys| - 1];
    if xs[|xs| - 1] == ys[|ys| - 1] && IsSubseq(xi, yi) {
      if x != xs[|xs| - 1] {
        assert x in xi by {
          var k :| 0 <= k < |xs| && xs[k] == x;
          assert xi[k] == x;
        }
        SubseqElems(xi, yi, x);
        assert x in ys by {
          var k :| 0 <= k < |yi| && yi[k] == x;
          assert ys[k] == x;
        }
      }
    } else {
      SubseqElems(xs, yi, x);
      var k :| 0 <= k < |yi| && yi[k] == x;
      assert ys[k] == x;
    }
  }

  /** The chain starts with the root and lists the rest of it in the order they come;
      its reasons are keyed by exactly the fields that joined, each a non-empty set of
      the field's dependencies. */
  lemma {:induction false} ChainShape(ps: M.PromptSet, root: string, rest: seq<string>)
    ensures var s := ChainOf(ps, root, rest);
      && |s.chain| >= 1 && s.chain[0] == root
      && IsSubseq(s.chain[1..], rest)
      && s.reason.Keys == Elems(s.chain[1..])
      && forall g :: g in s.reason ==> s.reason[g] != {} && s.reason[g] <= GetFieldDependencies(ps, g)
    decreases |rest|
  {
    if |rest| > 0 {
      var init, g := rest[..|rest| - 1], rest[|rest| - 1];
      ChainShape(ps, root, init);
      var s := ChainOf(ps, root, init);
      if GetFieldDependencies(ps, g) * Elems(s.chain) != {} {
        var c := s.chain + [g];
        assert c[1..] == s.chain[1..] + [g];
        assert c[1..][..|c[1..]| - 1] == s.chain[1..];
      }
    } else {
      assert [root][1..] == [];
    }
  }

  /** The chain built over a prefix of `rest` is a prefix of the chain over all of it: what
      comes after is drawn from the rest, and reasons for fields not in the rest stay. */
  lemma {:induction false} ChainFrom(ps: M.PromptSet, root: string, rest: seq<string>, m: nat)
    requires m <= |rest|
    ensures var pre, post := ChainOf(ps, root, rest[..m]), ChainOf(ps, root, rest);
      && |pre.chain| <= |post.chain| && post.chain[..|pre.chain|] == pre.chain
      && (forall i :: |pre.chain| <= i < |post.chain| ==> post.chain[i] in rest[m..])
      && (forall k :: k !in rest[m..] ==>
            (k in post.reason <==> k in pre.reason) && (k in pre.reason ==> post.reason[k] == pre.reason[k]))
    decreases |rest|
  {
    if m == |rest| {
      assert rest[..m] == rest;
    } else {
      var init, g := rest[..|rest| - 1], rest[|rest| - 1];
      ChainFrom(ps, root, init, m);
      assert init[..m] == rest[..m];
      assert rest[m..] == init[m..] + [g];
      var mid := ChainOf(ps, root, init);
      assert forall i :: |mid.chain| <= i < |ChainOf(ps, root, rest).chain| ==> ChainOf(ps, root, rest).chain[i] == g;
    }
  }

  /** Every field of the chain is the root or a field of the rest. */
  lemma {:induction false} ChainElems(ps: M.PromptSet, root: string, rest: seq<string>, x: string)
    requires x in ChainOf(ps, root, rest).chain
    ensures x == root || x in rest
  {
    var c := ChainOf(ps, root, rest).chain;
    ChainShape(ps, root, rest);
    if x != root {
      var k :| 0 <= k < |c| && c[k] == x;
      assert c[1..][k - 1] == x;
      SubseqElems(c[1..], rest, x);
    }
  }

  /** Over a duplicate-free order that does not repeat the root, the chain repeats no field. */
  lemma {:induction false} ChainDistinct(ps: M.PromptSet, root: string, rest: seq<string>)
    requires Distinct(rest) && root !in rest
    ensures Distinct(ChainOf(ps, root, rest).chain)
    decreases |rest|
  {
    if |rest| > 0 {
      var init, g := rest[..|rest| - 1], rest[|rest| - 1];
      assert Distinct(init);
      assert root !in init;
      ChainDistinct(ps, root, init);
      var c := ChainOf(ps, root, init).chain;
      forall x | x in c ensures x != g {
        ChainElems(ps, root, init, x);
        if x in init {
          var k :| 0 <= k < |init| && init[k] == x;
          assert rest[k] == x;
        }
      }
      if GetFieldDependencies(ps, g) * Elems(c) != {} {
        var c' := c + [g];
        forall a, b | 0 <= a < b < |c'| ensures c'[a] != c'[b] {
          if b == |c| {
            assert c'[a] == c[a];
            assert c[a] in c;
          } else {
            assert c'[a] == c[a] && c'[b] == c[b];
          }
        }
      }
    }
  }

  /** A field after the root joins the chain exactly when its dependencies meet the chain
      built from the fields before it, and its reason is exactly that meeting. */
  lemma {:induction false} ChainJoinRule(ps: M.PromptSet, root: string, rest: seq<string>, j: nat)
    requires Distinct(rest) && root !in rest && j < |rest|
    ensures var affected := GetFieldDependencies(ps, rest[j]) * Elems(ChainOf(ps, root, rest[..j]).chain);
      var s := ChainOf(ps, root, rest);
      && (rest[j] in s.chain <==> affected != {})
      && (rest[j] in s.reason <==> affected != {})
      && (rest[j] in s.reason ==> s.reason[rest[j]] == affected)
  {
    var g := rest[j];
    var s := ChainOf(ps, root, rest);
    ChainJoinMembership(ps, root, rest, j);
    ChainShape(ps, root, rest);
    ElemsMeaning(s.chain[1..], g);
    assert g in s.chain <==> g in s.chain[1..] by {
      assert s.chain == [root] + s.chain[1..];
    }
    if GetFieldDependencies(ps, g) * Elems(ChainOf(ps, root, rest[..j]).chain) != {} {
      ChainJoinReason(ps, root, rest, j);
    }
  }

  /** The step that considers `rest[j]`, and what follows it. */
  lemma {:induction false} ChainAtStep(ps: M.PromptSet, root: string, rest: seq<string>, j: nat)
    requires Distinct(rest) && j < |rest|
    ensures var pre, step := ChainOf(ps, root, rest[..j]), ChainOf(ps, root, rest[..j + 1]);
      var affected := GetFieldDependencies(ps, rest[j]) * Elems(pre.chain);
      && step == (if affected != {} then ChainState(pre.chain + [rest[j]], pre.reason[rest[j] := affected]) else pre)
      && rest[j] !in rest[j + 1..]
  {
    assert rest[..j + 1][..j] == rest[..j];
    assert rest[..j + 1][j] == rest[j];
    forall i | j + 1 <= i < |rest| ensures rest[i] != rest[j] { }
  }

  lemma {:induction false} ChainJoinMembership(ps: M.PromptSet, root: string, rest: seq<string>, j: nat)
    requires Distinct(rest) && root !in rest && j < |rest|
    ensures rest[j] in ChainOf(ps, root, rest).chain
      <==> GetFieldDependencies(ps, rest[j]) * Elems(ChainOf(ps, root, rest[..j]).chain) != {}
  {
    var g := rest[j];
    var pre := ChainOf(ps, root, rest[..j]);
    var s := ChainOf(ps, root, rest);
    ChainAtStep(ps, root, rest, j);
    ChainFrom(ps, root, rest, j + 1);
    if GetFieldDependencies(ps, g) * Elems(pre.chain) != {} {
      var step := ChainOf(ps, root, rest[..j + 1]);
      assert step.chain == pre.chain + [g];
      assert s.chain[..|step.chain|] == step.chain;
      assert s.chain[|pre.chain|] == s.chain[..|step.chain|][|pre.chain|] == g;
    } else {
      assert g !in pre.chain by {
        if g in pre.chain {
          ChainElems(ps, root, rest[..j], g);
        }
      }
      forall i | 0 <= i < |s.chain| ensures s.chain[i] != g {
        if i < |pre.chain| {
          assert s.chain[i] == pre.chain[i];
        } else {
          assert s.chain[i] in rest[j + 1..];
        }
      }
    }
  }

  lemma {:induction false} ChainJoinReason(ps: M.PromptSet, root: string, rest: seq<string>, j: nat)
    requires Distinct(rest) && j < |rest|
    requires GetFieldDependencies(ps, rest[j]) * Elems(ChainOf(ps, root, rest[..j]).chain) != {}
    ensures rest[j] in ChainOf(ps, root, rest).reason
    ensures ChainOf(ps, root, rest).reason[rest[j]]
         == GetFieldDependencies(ps, rest[j]) * Elems(ChainOf(ps, root, rest[..j]).chain)
  {
    ChainAtStep(ps, root, rest, j);
    ChainFrom(ps, root, rest, j + 1);
  }

  /** A direct dependent of the root that comes after it in the order is in the chain. */
  lemma {:induction false} DirectDependentJoins(ps: M.PromptSet, root: string, i: nat, j: nat)
    requires Distinct(ps.generationOrder) && i < j < |ps.generationOrder| && ps.generationOrder[i] == root
    requires ps.generationOrder[j] in DependentsAmong(ps, ps.generationOrder, root)
    ensures ChainSpec(ps, root, {}).Success?
    ensures ps.generationOrder[j] in ChainSpec(ps, root, {}).value.dependentFields
  {
    var order := ps.generationOrder;
    var rest := order[i + 1..];
    RootPosition(order, i);
    var k := j - (i + 1);
    assert rest[k] == order[j];
    RootInChain(ps, root, rest[..k]);
    assert root in GetFieldDependencies(ps, rest[k]) * Elems(ChainOf(ps, root, rest[..k]).chain);
    ChainJoinRule(ps, root, rest, k);
    var s := ChainOf(ps, root, rest);
    assert ChainSpec(ps, root, {}) == Success(RegenerationChain(root, s.chain, {}, s.reason)) by {
      assert IndexOf(order, root) == Some(i);
    }
  }

  /** In a duplicate-free order, the field at `i` is found at `i`, and the fields after it
      are distinct and other than it. */
  lemma {:induction false} RootPosition(order: seq<string>, i: nat)
    requires Distinct(order) && i < |order|
    ensures IndexOf(order, order[i]) == Some(i)
    ensures Distinct(order[i + 1..]) && order[i] !in order[i + 1..]
  {
    var p := IndexOf(order, order[i]).value;
    assert order[p] == order[i];
  }

  /** The root is always in the chain. */
  lemma {:induction false} RootInChain(ps: M.PromptSet, root: string, rest: seq<string>)
    ensures root in Elems(ChainOf(ps, root, rest).chain)
  {
    ChainShape(ps, root, rest);
    ElemsMeaning(ChainOf(ps, root, rest).chain, root);
  }

  // ---------------------------------------------------------------- validation

  /** `validate_regeneration_order`: every chain field is in the order, and no chain field
      depends on a chain field whose first position is the same or later. */
  function ValidRegenerationOrder(chain: RegenerationChain, ps: M.PromptSet): bool
  {
    && (forall i :: 0 <= i < |chain.dependentFields| ==> chain.dependentFields[i] in ps.generationOrder)
    && (forall i, d ::
          (0 <= i < |chain.dependentFields| && d in GetFieldDependencies(ps, chain.dependentFields[i])
           && d in chain.dependentFields) ==> IndexOf(chain.dependentFields, d).value < i)
  }

  method ValidateRegenerationOrder(chain: RegenerationChain, ps: M.PromptSet) returns (ok: bool)
    ensures ok == ValidRegenerationOrder(chain, ps)
  {
    var fields := chain.dependentFields;
    var i := 0;
    while i < |fields|
      invariant i <= |fields|
      invariant forall k :: 0 <= k < i ==> fields[k] in ps.generationOrder
      invariant forall k, d ::
        (0 <= k < i && d in GetFieldDependencies(ps, fields[k]) && d in fields) ==> IndexOf(fields, d).value < k
    {
      var field := fields[i];
      if field !in ps.generationOrder {
        return false;
      }
      var before := DependenciesBefore(fields, GetFieldDependencies(ps, field), i);
      if !before {
        return false;
      }
      i := i + 1;
    }
    return true;
  }

  /** The inner loop of `validate_regeneration_order`: each of `deps` that is a chain field
      is first found before position `i`. */
  method DependenciesBefore(fields: seq<string>, deps: set<string>, i: nat) returns (ok: bool)
    ensures ok <==> forall d :: d in deps && d in fields ==> IndexOf(fields, d).value < i
  {
    var pending := deps;
    while pending != {}
      invariant pending <= deps
      invariant forall d :: d in deps - pending && d in fields ==> IndexOf(fields, d).value < i
      decreases |pending|
    {
      var dep :| dep in pending;
      if dep in fields && IndexOf(fields, dep).value >= i {
        return false;
      }
      pending := pending - {dep};
    }
    return true;
  }

  /** A chain field that depends on itself fails the order validation, even when it is listed twice. */
  lemma {:induction false} SelfDependencyInvalid(chain: RegenerationChain, ps: M.PromptSet, i: nat)
    requires i < |chain.dependentFields|
    requires chain.dependentFields[i] in GetFieldDependencies(ps, chain.dependentFields[i])
    ensures !ValidRegenerationOrder(chain, ps)
  {
    var f := chain.dependentFields[i];
    var first := IndexOf(chain.dependentFields, f).value;
    assert chain.dependentFields[first] == f;
  }

  /** Each field of the order depends only on fields strictly earlier in it. */
  ghost predicate DependenciesComeEarlier(ps: M.PromptSet)
  {
    forall i :: 0 <= i < |ps.generationOrder| ==>
      GetFieldDependencies(ps, ps.generationOrder[i]) <= M.Before(ps.generationOrder, i)
  }

  /** When dependencies only point backwards in a duplicate-free order, every chain the
      manager builds passes its own check. */
  lemma {:induction false} ChainValidates(ps: M.PromptSet, root: string, changed: set<string>)
    requires Distinct(ps.generationOrder) && DependenciesComeEarlier(ps) && root in ps.generationOrder
    ensures ChainSpec(ps, root, changed).Success?
    ensures ValidRegenerationOrder(ChainSpec(ps, root, changed).value, ps)
  {
    var i := IndexOf(ps.generationOrder, root).value;
    var rest := ps.generationOrder[i + 1..];
    ChainValidUpTo(ps, i, |rest|);
    assert rest[..|rest|] == rest;
  }

  /** A chain starting at `root` whose fields all come before position `n` of the order,
      and which passes the order validation. */
  ghost predicate ChainGood(ps: M.PromptSet, root: string, c: seq<string>, n: nat)
    requires n <= |ps.generationOrder|
  {
    && |c| > 0 && c[0] == root
    && (forall k :: 0 <= k < |c| ==> c[k] in ps.generationOrder[..n])
    && ValidRegenerationOrder(RegenerationChain(root, c, {}, map[]), ps)
  }

  /** The chain built from the first `m` fields after position `i` holds only fields before
      position `i + 1 + m` and passes the order validation. */
  lemma {:induction false} ChainValidUpTo(ps: M.PromptSet, i: nat, m: nat)
    requires Distinct(ps.generationOrder) && DependenciesComeEarlier(ps)
    requires i + 1 + m <= |ps.generationOrder|
    ensures ChainGood(ps, ps.generationOrder[i], ChainOf(ps, ps.generationOrder[i], ps.generationOrder[i + 1..][..m]).chain, i + 1 + m)
  {
    var order := ps.generationOrder;
    var root := order[i];
    var rest := order[i + 1..];
    if m == 0 {
      assert rest[..0] == [];
      RootAloneValid(ps, i);
    } else {
      ChainValidUpTo(ps, i, m - 1);
      ChainExtends(ps, i, m);
    }
  }

  /** The inductive step of `ChainValidUpTo`: the field at position `i + m` either joins
      the chain or is passed over, and the chain stays good either way. */
  lemma ChainExtends(ps: M.PromptSet, i: nat, m: nat)
    requires Distinct(ps.generationOrder) && DependenciesComeEarlier(ps)
    requires 0 < m && i + 1 + m <= |ps.generationOrder|
    requires ChainGood(ps, ps.generationOrder[i], ChainOf(ps, ps.generationOrder[i], ps.generationOrder[i + 1..][..m - 1]).chain, i + m)
    ensures ChainGood(ps, ps.generationOrder[i], ChainOf(ps, ps.generationOrder[i], ps.generationOrder[i + 1..][..m]).chain, i + 1 + m)
  {
    var order := ps.generationOrder;
    var root := order[i];
    var rest := order[i + 1..];
    var n := i + m;
    var pre := rest[..m - 1];
    assert rest[..m][..m - 1] == pre;
    assert rest[..m][m - 1] == order[n];
    var c := ChainOf(ps, root, pre).chain;
    if GetFieldDependencies(ps, order[n]) * Elems(c) != {} {
      assert ChainOf(ps, root, rest[..m]).chain == c + [order[n]];
      ChainStepValid(ps, root, c, n);
    } else {
      assert ChainOf(ps, root, rest[..m]).chain == c;
      ChainSkipValid(ps, root, c, n);
    }
  }

  /** A good chain of fields before position `n` is a good chain of fields before `n + 1`. */
  lemma ChainSkipValid(ps: M.PromptSet, root: string, c: seq<string>, n: nat)
    requires n < |ps.generationOrder| && ChainGood(ps, root, c, n)
    ensures ChainGood(ps, root, c, n + 1)
  {
    PrefixGrows(ps.generationOrder, c, n);
  }

  /** The chain holding only the root passes the order validation. */
  lemma {:induction false} RootAloneValid(ps: M.PromptSet, i: nat)
    requires Distinct(ps.generationOrder) && DependenciesComeEarlier(ps) && i < |ps.generationOrder|
    ensures ChainGood(ps, ps.generationOrder[i], ChainOf(ps, ps.generationOrder[i], []).chain, i + 1)
  {
    var order := ps.generationOrder;
    var root := order[i];
    assert order[..i + 1][i] == root;
    assert IndexOf([root], root) == Some(0);
    assert GetFieldDependencies(ps, root) <= M.Before(order, i);
    assert root !in M.Before(order, i);
  }

  /** Fields before position `n` are fields before position `n + 1`. */
  lemma {:induction false} PrefixGrows(order: seq<string>, c: seq<string>, n: nat)
    requires n < |order| && forall k :: 0 <= k < |c| ==> c[k] in order[..n]
    ensures forall k :: 0 <= k < |c| ==> c[k] in order[..n + 1]
  {
    forall k | 0 <= k < |c| ensures c[k] in order[..n + 1] {
      var p :| 0 <= p < n && order[..n][p] == c[k];
      assert order[..n + 1][p] == c[k];
    }
  }

  /** Appending the field at position `n` to a valid chain of fields before `n` keeps it valid. */
  lemma {:induction false} ChainStepValid(ps: M.PromptSet, root: string, c: seq<string>, n: nat)
    requires Distinct(ps.generationOrder) && DependenciesComeEarlier(ps) && n < |ps.generationOrder|
    requires ChainGood(ps, root, c, n)
    ensures ChainGood(ps, root, c + [ps.generationOrder[n]], n + 1)
  {
    var order := ps.generationOrder;
    var g := order[n];
    var c' := c + [g];
    assert c'[0] == root;
    assert order[..n + 1][n] == g;
    forall k | 0 <= k < |c| ensures c[k] in order[..n + 1] && c[k] != g {
      var p :| 0 <= p < n && order[..n][p] == c[k];
      assert order[..n + 1][p] == c[k];
      assert order[p] == c[k];
    }
    assert g !in c;
    forall d | d in c ensures IndexOf(c', d) == IndexOf(c, d) {
      IndexOfSnoc(c, g, d);
    }
    forall k, d | 0 <= k < |c'| && d in GetFieldDependencies(ps, c'[k]) && d in c'
      ensures IndexOf(c', d).value < k
    {
      if k == |c| {
        assert GetFieldDependencies(ps, g) <= M.Before(order, n);
        assert d != g;
      } else {
        assert c'[k] == c[k];
        var p :| 0 <= p < n && order[..n][p] == c[k];
        assert order[p] == c[k];
        assert GetFieldDependencies(ps, order[p]) <= M.Before(order, p);
        assert d != g;
      }
    }
  }

  /** Appending an element does not move the first position of one already present. */
  lemma {:induction false} IndexOfSnoc<T>(xs: seq<T>, y: T, x: T)
    requires x in xs
    ensures IndexOf(xs + [y], x) == IndexOf(xs, x)
  {
    var i := IndexOf(xs, x).value;
    assert (xs + [y])[i] == x;
  }

  /** When the root and a later field each depend on the other, the chain from the root
      fails the order validation. */
  lemma {:induction false} MutualDependencyInvalid(ps: M.PromptSet, i: nat, j: nat)
    requires Distinct(ps.generationOrder) && i < j < |ps.generationOrder|
    requires ps.generationOrder[i] in GetFieldDependencies(ps, ps.generationOrder[j])
    requires ps.generationOrder[j] in GetFieldDependencies(ps, ps.generationOrder[i])
    ensures !ValidRegenerationOrder(ChainSpec(ps, ps.generationOrder[i], {}).value, ps)
  {
    var order := ps.generationOrder;
    var root, g := order[i], order[j];
    DirectDependentJoins(ps, root, i, j);
    var c := ChainSpec(ps, root, {}).value.dependentFields;
    assert IndexOf(order, root) == Some(i);
    ChainShape(ps, root, order[i + 1..]);
    assert c[0] == root && root != g;
    assert IndexOf(c, g).value > 0;
  }
}
