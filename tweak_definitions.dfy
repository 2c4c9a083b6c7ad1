/**
 * The catalog integrity check (tests/tweak_definitions.rs), restated as a
 * validator over a catalog given as parameters. The real catalog
 * (`get_all_tweaks`, `CATEGORIES`) and the full shapes of its records are
 * not part of this model; only the fields the check reads are kept.
 */
module TweakIntegrity {
  import opened Wrappers

  /** One registry operation; only its subkey is inspected. */
  datatype Op = Op(subkey: string)

  datatype Category = Category(id: string)

  datatype Tweak = Tweak(
    id: string,
    name: string,
    description: string,
    category: string,
    enabledOps: seq<Op>,
    disabledOps: seq<Op>)

  /** The five assertions of the check, in the order they are made. */
  datatype Violation =
    | DuplicateId(id: string)
    | EmptyName(id: string)
    | EmptyDescription(id: string)
    | InvalidCategory(id: string, category: string)
    | EmptySubkey(id: string)

  /** Pass, or the position of the first failing tweak and the first assertion it fails. */
  datatype Verdict = Pass | Fail(index: nat, violation: Violation)

  /** The ids of a run of tweaks. */
  function Ids(tweaks: seq<Tweak>): set<string>
  {
    set i | 0 <= i < |tweaks| :: tweaks[i].id
  }

  /** `CATEGORIES.iter().any(|c| c.id == id)`. */
  predicate KnownCategory(categories: seq<Category>, id: string)
  {
    exists c :: c in categories && c.id == id
  }

  /** The conditions one tweak must meet on its own. */
  ghost predicate TweakOk(t: Tweak, categories: seq<Category>)
  {
    && t.name != ""
    && t.description != ""
    && KnownCategory(categories, t.category)
    && forall op :: op in t.enabledOps ==> op.subkey != ""
  }

  /** The catalog invariant: distinct ids and every tweak sound on its own. */
  ghost predicate WellFormed(tweaks: seq<Tweak>, categories: seq<Category>)
  {
    && (forall i, j :: 0 <= i < j < |tweaks| ==> tweaks[i].id != tweaks[j].id)
    && (forall i :: 0 <= i < |tweaks| ==> TweakOk(tweaks[i], categories))
  }

  /** The first assertion that fails for tweak `t` when `seen` holds the ids before it. */
  ghost function Diagnose(seen: set<string>, t: Tweak, categories: seq<Category>): Option<Violation>
  {
    if t.id in seen then Some(DuplicateId(t.id))
    else if t.name == "" then Some(EmptyName(t.id))
    else if t.description == "" then Some(EmptyDescription(t.id))
    else if !KnownCategory(categories, t.category) then Some(InvalidCategory(t.id, t.category))
    else if exists op :: op in t.enabledOps && op.subkey == "" then Some(EmptySubkey(t.id))
    else None
  }

  /** A well-formed catalog stays well-formed exactly when the next tweak passes every assertion. */
  lemma WellFormedExtend(prefix: seq<Tweak>, t: Tweak, categories: seq<Category>)
    requires WellFormed(prefix, categories)
    ensures WellFormed(prefix + [t], categories) <==> Diagnose(Ids(prefix), t, categories) == None
  {
    var s := prefix + [t];
    if Diagnose(Ids(prefix), t, categories) == None {
      forall i, j | 0 <= i < j < |s| ensures s[i].id != s[j].id {
        if j == |prefix| {
          assert s[i].id in Ids(prefix) by { assert s[i] == prefix[i]; }
        }
      }
      forall i | 0 <= i < |s| ensures TweakOk(s[i], categories) {
        if i < |prefix| {
          assert s[i] == prefix[i];
        }
      }
    } else if t.id in Ids(prefix) {
      var i :| 0 <= i < |prefix| && prefix[i].id == t.id;
      assert s[i].id == s[|prefix|].id;
    } else {
      assert !TweakOk(s[|prefix|], categories);
    }
  }

  /**
   * `test_tweak_integrity`: one pass over the tweaks with a set of the ids
   * seen so far. The check passes exactly when the catalog is well-formed;
   * on failure it names the first offending tweak and the first assertion
   * that tweak fails, and every tweak before it is sound.
   */
  method CheckIntegrity(tweaks: seq<Tweak>, categories: seq<Category>) returns (v: Verdict)
    ensures v == Pass <==> WellFormed(tweaks, categories)
    ensures v.Fail? ==>
      && v.index < |tweaks|
      && WellFormed(tweaks[..v.index], categories)
      && Diagnose(Ids(tweaks[..v.index]), tweaks[v.index], categories) == Some(v.violation)
  {
    var seen: set<string> := {};
    for i := 0 to |tweaks|
      invariant seen == Ids(tweaks[..i])
      invariant WellFormed(tweaks[..i], categories)
    {
      var t := tweaks[i];
      assert tweaks[..i + 1] == tweaks[..i] + [t];
      WellFormedExtend(tweaks[..i], t, categories);
      if t.id in seen {
        return Fail(i, DuplicateId(t.id));
      }
      seen := seen + {t.id};
      if t.name == "" {
        return Fail(i, EmptyName(t.id));
      }
      if t.description == "" {
        return Fail(i, EmptyDescription(t.id));
      }
      if !KnownCategory(categories, t.category) {
        return Fail(i, InvalidCategory(t.id, t.category));
      }
      for k := 0 to |t.enabledOps|
        invariant forall m :: 0 <= m < k ==> t.enabledOps[m].subkey != ""
      {
        if t.enabledOps[k].subkey == "" {
          return Fail(i, EmptySubkey(t.id));
        }
      }
    }
    assert tweaks[..|tweaks|] == tweaks;
    return Pass;
  }
}
