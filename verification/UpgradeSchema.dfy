/** Upgrades of the swap contract: a new interface manifest has to keep everything the stored one promises. */
module UpgradeSchema {
  import opened Common

  datatype FunctionEntry = FunctionEntry(name: string, signature: string)

  datatype ErrorEntry = ErrorEntry(name: string, code: nat)

  datatype Schema = Schema(version: nat, functions: seq<FunctionEntry>,
                           errors: seq<ErrorEntry>, storageKeys: seq<string>)

  // ── Searches ─────────────────────────────────────────────────────────────

  function FindFunction(entries: seq<FunctionEntry>, name: string): Option<FunctionEntry> {
    if entries == [] then None
    else if entries[0].name == name then Some(entries[0])
    else FindFunction(entries[1..], name)
  }

  function FindError(entries: seq<ErrorEntry>, name: string): Option<ErrorEntry> {
    if entries == [] then None else if entries[0].name == name then Some(entries[0]) else FindError(entries[1..], name)
  }

  method SearchFunction(entries: seq<FunctionEntry>, name: string) returns (found: Option<FunctionEntry>)
    ensures found == FindFunction(entries, name)
  {
    for i := 0 to |entries|
      invariant FindFunction(entries, name) == FindFunction(entries[i..], name)
    {
      assert entries[i..][1..] == entries[i + 1..];
      if entries[i].name == name {
        return Some(entries[i]);
      }
    }
    return None;
  }

  method SearchError(entries: seq<ErrorEntry>, name: string) returns (found: Option<ErrorEntry>)
    ensures found == FindError(entries, name)
  {
    for i := 0 to |entries|
      invariant FindError(entries, name) == FindError(entries[i..], name)
    {
      assert entries[i..][1..] == entries[i + 1..];
      if entries[i].name == name {
        return Some(entries[i]);
      }
    }
    return None;
  }

  // ── Compatibility ────────────────────────────────────────────────────────

  predicate KeepsFunction(next: Schema, entry: FunctionEntry) {
    var found := FindFunction(next.functions, entry.name);
    found.Some? && found.value.signature == entry.signature
  }

  predicate KeepsError(next: Schema, entry: ErrorEntry) {
    var found := FindError(next.errors, entry.name);
    found.Some? && found.value.code == entry.code
  }

  /** What the check is for. */
  ghost predicate Compatible(current: Schema, next: Schema) {
    && current.version < next.version
    && (forall e :: e in current.functions ==> KeepsFunction(next, e))
    && (forall e :: e in current.errors ==> KeepsError(next, e))
    && (forall k :: k in current.storageKeys ==> k in next.storageKeys)
  }

  // The errors the check raises, in the order in which it looks for them.

  function FunctionsKept(entries: seq<FunctionEntry>, next: Schema): Check {
    if entries == [] then Pass
    else
      match FindFunction(next.functions, entries[0].name)
      case None => Fail(MissingFunc)
      case Some(found) =>
        if found.signature != entries[0].signature then Fail(FuncChanged) else FunctionsKept(entries[1..], next)
  }

  function ErrorsKept(entries: seq<ErrorEntry>, next: Schema): Check {
    if entries == [] then Pass
    else
      match FindError(next.errors, entries[0].name)
      case None => Fail(MissingFunc)
      case Some(found) => if found.code != entries[0].code then Fail(FuncChanged) else ErrorsKept(entries[1..], next)
  }

  function KeysKept(keys: seq<string>, next: Schema): Check {
    if keys == [] then Pass else if keys[0] !in next.storageKeys then Fail(MissingFunc) else KeysKept(keys[1..], next)
  }

  function Verdict(current: Schema, next: Schema): Check {
    if next.version <= current.version then Fail(SchemaNotGreater)
    else if FunctionsKept(current.functions, next).Fail? then FunctionsKept(current.functions, next)
    else if ErrorsKept(current.errors, next).Fail? then ErrorsKept(current.errors, next)
    else KeysKept(current.storageKeys, next)
  }

  lemma {:induction false} FunctionsKeptExactly(entries: seq<FunctionEntry>, next: Schema)
    ensures FunctionsKept(entries, next).Pass? <==> forall e :: e in entries ==> KeepsFunction(next, e)
    ensures FunctionsKept(entries, next).Fail? ==>
      FunctionsKept(entries, next) == Fail(MissingFunc) || FunctionsKept(entries, next) == Fail(FuncChanged)
    ensures FunctionsKept(entries, next) == Fail(MissingFunc) ==>
      exists e :: e in entries && FindFunction(next.functions, e.name).None?
    ensures FunctionsKept(entries, next) == Fail(FuncChanged) ==>
      exists e :: e in entries && FindFunction(next.functions, e.name).Some? && !KeepsFunction(next, e)
  {
    if entries == [] {
    } else {
      FunctionsKeptExactly(entries[1..], next);
      assert entries[0] in entries && forall e :: e in entries[1..] ==> e in entries;
      assert forall e :: e in entries ==> e == entries[0] || e in entries[1..];
      assert KeepsFunction(next, entries[0]) <==>
        && FindFunction(next.functions, entries[0].name).Some?
        && FindFunction(next.functions, entries[0].name).value.signature == entries[0].signature;
    }
  }

  lemma {:induction false} ErrorsKeptExactly(entries: seq<ErrorEntry>, next: Schema)
    ensures ErrorsKept(entries, next).Pass? <==> forall e :: e in entries ==> KeepsError(next, e)
    ensures ErrorsKept(entries, next).Fail? ==>
      ErrorsKept(entries, next) == Fail(MissingFunc) || ErrorsKept(entries, next) == Fail(FuncChanged)
    ensures ErrorsKept(entries, next) == Fail(MissingFunc) ==>
      exists e :: e in entries && FindError(next.errors, e.name).None?
    ensures ErrorsKept(entries, next) == Fail(FuncChanged) ==>
      exists e :: e in entries && FindError(next.errors, e.name).Some? && !KeepsError(next, e)
  {
    if entries == [] {
    } else {
      ErrorsKeptExactly(entries[1..], next);
      assert entries[0] in entries && forall e :: e in entries[1..] ==> e in entries;
      assert forall e :: e in entries ==> e == entries[0] || e in entries[1..];
      assert KeepsError(next, entries[0]) <==>
        && FindError(next.errors, entries[0].name).Some?
        && FindError(next.errors, entries[0].name).value.code == entries[0].code;
    }
  }

  lemma {:induction false} KeysKeptExactly(keys: seq<string>, next: Schema)
    ensures KeysKept(keys, next).Pass? <==> forall k :: k in keys ==> k in next.storageKeys
    ensures KeysKept(keys, next).Fail? ==> KeysKept(keys, next) == Fail(MissingFunc)
  {
    if keys == [] {
    } else {
      KeysKeptExactly(keys[1..], next);
      assert keys[0] in keys && forall k :: k in keys[1..] ==> k in keys;
      assert forall k :: k in keys ==> k == keys[0] || k in keys[1..];
    }
  }

  /** The check passes exactly on compatible manifests; its errors mean a version that is not greater, an entry
      that is changed, and an entry that is gone. */
  lemma VerdictExact(current: Schema, next: Schema)
    ensures Verdict(current, next).Pass? <==> Compatible(current, next)
    ensures Verdict(current, next) == Fail(SchemaNotGreater) <==> next.version <= current.version
    ensures Verdict(current, next) == Fail(FuncChanged) ==>
      || (exists e :: e in current.functions && FindFunction(next.functions, e.name).Some? && !KeepsFunction(next, e))
      || (exists e :: e in current.errors && FindError(next.errors, e.name).Some? && !KeepsError(next, e))
    ensures Verdict(current, next) == Fail(MissingFunc) ==>
      || (exists e :: e in current.functions && FindFunction(next.functions, e.name).None?)
      || (exists e :: e in current.errors && FindError(next.errors, e.name).None?)
      || (exists k :: k in current.storageKeys && k !in next.storageKeys)
  {
    FunctionsKeptExactly(current.functions, next);
    ErrorsKeptExactly(current.errors, next);
    KeysKeptExactly(current.storageKeys, next);
  }

  /** The check: version, functions, errors, storage keys. */
  method CheckSchemaCompatibility(current: Schema, next: Schema) returns (c: Check)
    ensures c == Verdict(current, next)
    ensures c.Pass? <==> Compatible(current, next)
    ensures c == Fail(SchemaNotGreater) <==> next.version <= current.version
    ensures c.Fail? && current.version < next.version ==> c.error == MissingFunc || c.error == FuncChanged
  {
    VerdictExact(current, next);
    if next.version <= current.version {
      return Fail(SchemaNotGreater);
    }
    for i := 0 to |current.functions|
      invariant FunctionsKept(current.functions, next) == FunctionsKept(current.functions[i..], next)
    {
      assert current.functions[i..][1..] == current.functions[i + 1..];
      var entry := current.functions[i];
      var found := SearchFunction(next.functions, entry.name);
      if found.None? {
        return Fail(MissingFunc);
      }
      if found.value.signature != entry.signature {
        return Fail(FuncChanged);
      }
    }
    for i := 0 to |current.errors|
      invariant ErrorsKept(current.errors, next) == ErrorsKept(current.errors[i..], next)
    {
      assert current.errors[i..][1..] == current.errors[i + 1..];
      var entry := current.errors[i];
      var found := SearchError(next.errors, entry.name);
      if found.None? {
        return Fail(MissingFunc);
      }
      if found.value.code != entry.code {
        return Fail(FuncChanged);
      }
    }
    for i := 0 to |current.storageKeys|
      invariant KeysKept(current.storageKeys, next) == KeysKept(current.storageKeys[i..], next)
    {
      assert current.storageKeys[i..][1..] == current.storageKeys[i + 1..];
      var found := Contains(next.storageKeys, current.storageKeys[i]);
      if !found {
        return Fail(MissingFunc);
      }
    }
    return Pass;
  }

  lemma {:induction false} FoundFunctionIsListed(entries: seq<FunctionEntry>, name: string)
    ensures FindFunction(entries, name).Some? ==>
      FindFunction(entries, name).value in entries && FindFunction(entries, name).value.name == name
  {
    if entries == [] || entries[0].name == name {
    } else {
      FoundFunctionIsListed(entries[1..], name);
    }
  }

  lemma {:induction false} FoundErrorIsListed(entries: seq<ErrorEntry>, name: string)
    ensures FindError(entries, name).Some? ==>
      FindError(entries, name).value in entries && FindError(entries, name).value.name == name
  {
    if entries == [] || entries[0].name == name {
    } else {
      FoundErrorIsListed(entries[1..], name);
    }
  }

  /** Compatibility is a strict partial order, even between manifests that list a name more than once. */
  lemma CompatibleIsTransitive(a: Schema, b: Schema, c: Schema)
    requires Compatible(a, b) && Compatible(b, c)
    ensures Compatible(a, c) && !Compatible(c, a)
  {
    forall e | e in a.functions ensures KeepsFunction(c, e) {
      assert KeepsFunction(b, e);
      FoundFunctionIsListed(b.functions, e.name);
      assert KeepsFunction(c, FindFunction(b.functions, e.name).value);
    }
    forall e | e in a.errors ensures KeepsError(c, e) {
      assert KeepsError(b, e);
      FoundErrorIsListed(b.errors, e.name);
      assert KeepsError(c, FindError(b.errors, e.name).value);
    }
  }

  /** What a lookup finds in a manifest, it finds unchanged in every compatible one. */
  lemma LookupsSurvive(a: Schema, b: Schema, name: string)
    requires Compatible(a, b)
    ensures FindFunction(a.functions, name).Some? ==> FindFunction(b.functions, name) == FindFunction(a.functions, name)
    ensures FindError(a.errors, name).Some? ==> FindError(b.errors, name) == FindError(a.errors, name)
    ensures name in a.storageKeys ==> name in b.storageKeys
  {
    FoundFunctionIsListed(a.functions, name);
    FoundFunctionIsListed(b.functions, name);
    FoundErrorIsListed(a.errors, name);
    FoundErrorIsListed(b.errors, name);
    if FindFunction(a.functions, name).Some? {
      assert KeepsFunction(b, FindFunction(a.functions, name).value);
    }
    if FindError(a.errors, name).Some? {
      assert KeepsError(b, FindError(a.errors, name).value);
    }
  }

  lemma {:induction false} ListedFunctionIsFound(entries: seq<FunctionEntry>, e: FunctionEntry)
    requires e in entries
    ensures FindFunction(entries, e.name).Some?
  {
    if entries[0].name == e.name {
    } else {
      ListedFunctionIsFound(entries[1..], e);
    }
  }

  lemma {:induction false} ListedErrorIsFound(entries: seq<ErrorEntry>, e: ErrorEntry)
    requires e in entries
    ensures FindError(entries, e.name).Some?
  {
    if entries[0].name == e.name {
    } else {
      ListedErrorIsFound(entries[1..], e);
    }
  }

  /** Only a manifest that agrees with itself on repeated names has compatible successors: one that lists a name
      with two signatures can never be upgraded. */
  lemma UpgradableMeansConsistent(a: Schema)
    ensures (exists b :: Compatible(a, b))
      <==> (forall e :: e in a.functions ==> KeepsFunction(a, e)) && (forall e :: e in a.errors ==> KeepsError(a, e))
  {
    if b :| Compatible(a, b) {
      forall e | e in a.functions ensures KeepsFunction(a, e) {
        ListedFunctionIsFound(a.functions, e);
        FoundFunctionIsListed(a.functions, e.name);
        assert KeepsFunction(b, e) && KeepsFunction(b, FindFunction(a.functions, e.name).value);
      }
      forall e | e in a.errors ensures KeepsError(a, e) {
        ListedErrorIsFound(a.errors, e);
        FoundErrorIsListed(a.errors, e.name);
        assert KeepsError(b, e) && KeepsError(b, FindError(a.errors, e.name).value);
      }
    }
    if (forall e :: e in a.functions ==> KeepsFunction(a, e)) && (forall e :: e in a.errors ==> KeepsError(a, e)) {
      var b := a.(version := a.version + 1);
      forall e | e in a.functions ensures KeepsFunction(b, e) {
        assert KeepsFunction(a, e);
      }
      forall e | e in a.errors ensures KeepsError(b, e) {
        assert KeepsError(a, e);
      }
      assert Compatible(a, b);
    }
  }

  // ── Chains of upgrades ───────────────────────────────────────────────────

  /** The first manifest is taken as it is; every later one has to be compatible with the one stored. */
  ghost function Upgraded(stored: Option<Schema>, next: Schema): Option<Schema> {
    if stored.None? || Compatible(stored.value, next) then Some(next) else stored
  }

  ghost function UpgradedAll(stored: Option<Schema>, candidates: seq<Schema>): Option<Schema> {
    if candidates == [] then stored
    else Upgraded(UpgradedAll(stored, candidates[..|candidates| - 1]), candidates[|candidates| - 1])
  }

  class Upgrader {
    var schema: Option<Schema>

    constructor ()
      ensures schema == None
    {
      schema := None;
    }

    method ValidateUpgrade(next: Schema) returns (c: Check)
      modifies this
      ensures schema == Upgraded(old(schema), next)
      ensures c == if old(schema).None? then Pass else Verdict(old(schema).value, next)
    {
      if schema.Some? {
        c := CheckSchemaCompatibility(schema.value, next);
        if c.Fail? {
          return;
        }
      }
      schema := Some(next);
      return Pass;
    }
  }

  /** Whatever upgrades are tried after a manifest is stored, the stored one stays or is compatible with it. */
  lemma {:induction false} UpgradesStayCompatible(first: Schema, candidates: seq<Schema>)
    ensures UpgradedAll(Some(first), candidates).Some?
    ensures UpgradedAll(Some(first), candidates).value == first
      || Compatible(first, UpgradedAll(Some(first), candidates).value)
  {
    if candidates == [] {
    } else {
      var before := candidates[..|candidates| - 1];
      UpgradesStayCompatible(first, before);
      var middle, next := UpgradedAll(Some(first), before).value, candidates[|candidates| - 1];
      if middle != first && Compatible(middle, next) {
        CompatibleIsTransitive(first, middle, next);
      }
    }
  }

  /** So every function signature, error code and storage key that any stored manifest answered is answered the
      same by every manifest stored later. */
  lemma UpgradesKeepPromises(first: Schema, candidates: seq<Schema>, name: string)
    ensures var last := UpgradedAll(Some(first), candidates);
            && last.Some?
            && (FindFunction(first.functions, name).Some? ==>
                  FindFunction(last.value.functions, name) == FindFunction(first.functions, name))
            && (FindError(first.errors, name).Some? ==>
                FindError(last.value.errors, name) == FindError(first.errors, name))
            && (name in first.storageKeys ==> name in last.value.storageKeys)
  {
    UpgradesStayCompatible(first, candidates);
    var last := UpgradedAll(Some(first), candidates).value;
    if last != first {
      LookupsSurvive(first, last, name);
    }
  }
}
