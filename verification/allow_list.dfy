/**
 `isNumberAllowed`: the process-wide list of numbers the server may dial,
 seeded on first use, extended by a local format rule, and otherwise by two
 lookups at the telephony provider whose answers are inputs here.
 */
module AllowList {
  import opened Common

  /** The numbers the list starts with. */
  const Seeded: set<string> := {
    "+18064251145", "+4531219652", "+19472176285", "+17864874788",
    "+4541298347", "+4525263462", "+19144092589"}

  /** The answer of one provider lookup (incoming numbers, verified caller IDs). */
  datatype Lookup = Found | NotFound | Failed

  datatype Verdict = Verdict(allowed: bool, list: set<string>)

  /** The local rule: a `+` prefix and at least eight characters. */
  predicate LocalRule(to: string)
  {
    HasPrefix(to, "+") && JsLength(to) >= 8
  }

  /**
   The decision for `to`, given the list so far (`None` before its first
   use) and the lookups' answers. A listed number is allowed as is; a number
   passing the local rule, or found by either lookup, is added and allowed;
   a failing lookup denies.
   */
  function Check(list: Option<set<string>>, to: string, incoming: Lookup, outgoing: Lookup): (r: Verdict)
    ensures r.allowed <==> to in r.list
    ensures var l := OrDefaultSet(list); r.list == l || r.list == l + {to}
  {
    var l := OrDefaultSet(list);
    if to in l then Verdict(true, l)
    else if LocalRule(to) then Verdict(true, l + {to})
    else if incoming == Failed then Verdict(false, l)
    else if incoming == Found then Verdict(true, l + {to})
    else if outgoing == Found then Verdict(true, l + {to})
    else Verdict(false, l)
  }

  /** The list in use: the given one, or the seeded one on first use. */
  function OrDefaultSet(list: Option<set<string>>): set<string>
  {
    if list.Some? then list.value else Seeded
  }

  /** A number passing the local rule is allowed without consulting the provider. */
  lemma LocalRuleSuffices(list: Option<set<string>>, to: string, incoming: Lookup, outgoing: Lookup)
    requires LocalRule(to)
    ensures Check(list, to, incoming, outgoing) == Verdict(true, OrDefaultSet(list) + {to})
  {
  }

  /**
   The decision is the reference rule: listed, or passing the local rule, or
   found by a lookup that was reached (the outgoing lookup only runs after the
   incoming one answered "not found").
   */
  lemma CheckMatchesRule(list: Option<set<string>>, to: string, incoming: Lookup, outgoing: Lookup)
    ensures Check(list, to, incoming, outgoing).allowed <==>
      || to in OrDefaultSet(list)
      || LocalRule(to)
      || incoming == Found
      || (incoming == NotFound && outgoing == Found)
  {
  }

  /** Once allowed, a number stays allowed, whatever the provider answers next time. */
  lemma AllowedStaysAllowed(list: Option<set<string>>, to: string, i1: Lookup, o1: Lookup, i2: Lookup, o2: Lookup)
    requires Check(list, to, i1, o1).allowed
    ensures var r1 := Check(list, to, i1, o1);
      Check(Some(r1.list), to, i2, o2) == r1
  {
  }

  /**
   `allowedNumbers[to]` as written reads a plain object, so the names every
   object inherits answer as listed. These are those names.
   */
  const InheritedNames: set<string> := {
    "constructor", "toString", "toLocaleString", "valueOf", "hasOwnProperty",
    "isPrototypeOf", "propertyIsEnumerable", "__proto__", "__defineGetter__",
    "__defineSetter__", "__lookupGetter__", "__lookupSetter__"}

  /** `Check` as the code is written: the first test also succeeds for an inherited property name. */
  function CheckAsWritten(list: Option<set<string>>, to: string, incoming: Lookup, outgoing: Lookup): (r: Verdict)
    ensures to !in InheritedNames ==> r == Check(list, to, incoming, outgoing)
    ensures to in InheritedNames ==> r == Verdict(true, OrDefaultSet(list))
  {
    var l := OrDefaultSet(list);
    if to in l || to in InheritedNames then Verdict(true, l)
    else Check(list, to, incoming, outgoing)
  }

  /**
   The discrepancy: "constructor" is allowed by the code as written although
   it is not on the list, fails the local rule and both lookups say it is
   unknown; the intended decision denies it.
   */
  lemma InheritedNameAllowed()
    ensures var r := CheckAsWritten(None, "constructor", NotFound, NotFound);
      r.allowed && "constructor" !in r.list
    ensures !Check(None, "constructor", NotFound, NotFound).allowed
  {
    assert !HasPrefix("constructor", "+") by {
      assert "constructor"[0] == 'c';
      assert "constructor"[..1][0] != "+"[0];
    }
  }
}
