/** Directory names made from session and model names (storage_paths.cpp, storage_layout.cpp). */
module StorageNames {
  import opened Basics
  import opened Persistent
  import opened SessionSaving
  import opened CacheManifest

  const UNDERSCORE: byte := '_' as int

  // ----- Sanitising -----

  /** Runs of bytes that names may not contain become one underscore, or nothing at the front. */
  function Collapsed(value: Bytes): Bytes
    decreases |value|, 0
  {
    if value == [] then []
    else
      var r := Collapsed(Init(value));
      if IsNameByte(Last(value)) then r + [Last(value)]
      else if r != [] && !EndsWithSeparator(Init(value)) then r + [UNDERSCORE]
      else r
  }

  predicate EndsWithSeparator(value: Bytes)
    decreases |value|, 1
  {
    value != [] && !IsNameByte(Last(value)) && Collapsed(value) != []
  }

  function TrimFront(value: Bytes): Bytes {
    if value != [] && value[0] == UNDERSCORE then TrimFront(value[1..]) else value
  }

  function TrimBack(value: Bytes): Bytes {
    if value != [] && Last(value) == UNDERSCORE then TrimBack(Init(value)) else value
  }

  function Sanitized(value: Bytes): Bytes {
    var result := TrimBack(TrimFront(Collapsed(value)));
    if result == DOT || result == DOT_DOT then [] else result
  }

  method SanitizeStorageComponent(value: Bytes) returns (result: Bytes)
    ensures result == Sanitized(value)
  {
    result := [];
    var lastWasSep := false;
    for i := 0 to |value|
      invariant result == Collapsed(value[..i])
      invariant lastWasSep == EndsWithSeparator(value[..i])
    {
      assert Init(value[..i + 1]) == value[..i];
      if IsNameByte(value[i]) {
        result, lastWasSep := result + [value[i]], false;
      } else if result != [] && !lastWasSep {
        result, lastWasSep := result + [UNDERSCORE], true;
      }
    }
    assert value[..|value|] == value;
    while result != [] && result[0] == UNDERSCORE
      invariant TrimFront(result) == TrimFront(Collapsed(value))
      decreases |result|
    {
      result := result[1..];
    }
    while result != [] && Last(result) == UNDERSCORE
      invariant TrimBack(result) == TrimBack(TrimFront(Collapsed(value)))
      decreases |result|
    {
      result := Init(result);
    }
    if result == DOT || result == DOT_DOT {
      result := [];
    }
  }

  // ----- What sanitising does -----

  predicate AllNameBytes(value: Bytes) {
    forall b | b in value :: IsNameByte(b)
  }

  predicate NoUnderscoreAtTheEnds(value: Bytes) {
    value != [] ==> value[0] != UNDERSCORE && Last(value) != UNDERSCORE
  }

  /** What can be the name of a directory after sanitising. */
  predicate CleanName(value: Bytes) {
    AllNameBytes(value) && NoUnderscoreAtTheEnds(value) && value != DOT && value != DOT_DOT
  }

  /** The bytes that sanitising must not lose. */
  function Letters(value: Bytes): Bytes {
    if value == [] then []
    else Letters(Init(value)) + if IsNameByte(Last(value)) && Last(value) != UNDERSCORE then [Last(value)] else []
  }

  lemma CollapsedStep(value: Bytes)
    requires value != []
    ensures IsNameByte(Last(value)) ==> Collapsed(value) == Collapsed(Init(value)) + [Last(value)]
    ensures !IsNameByte(Last(value)) ==>
              Collapsed(value) == Collapsed(Init(value)) || Collapsed(value) == Collapsed(Init(value)) + [UNDERSCORE]
  {
  }

  lemma LettersOfAppended(value: Bytes, b: byte)
    ensures Letters(value + [b]) == Letters(value) + if IsNameByte(b) && b != UNDERSCORE then [b] else []
    ensures AllNameBytes(value + [b]) <==> AllNameBytes(value) && IsNameByte(b)
  {
    assert Init(value + [b]) == value;
    assert b in value + [b];
  }

  lemma NothingCollapses()
    ensures Collapsed([]) == [] && AllNameBytes([]) && Letters([]) == [] && IsNameByte(UNDERSCORE)
  {
  }

  lemma {:induction false} CollapsedIsClean(value: Bytes)
    ensures AllNameBytes(Collapsed(value)) && Letters(Collapsed(value)) == Letters(value)
    ensures AllNameBytes(value) ==> Collapsed(value) == value
  {
    hide Collapsed, Letters, AllNameBytes, IsNameByte, EndsWithSeparator;
    NothingCollapses();
    if value != [] {
      CollapsedIsClean(Init(value));
      assert value == Init(value) + [Last(value)];
      CollapsedStep(value);
      LettersOfAppended(Init(value), Last(value));
      LettersOfAppended(Collapsed(Init(value)), Last(value));
      LettersOfAppended(Collapsed(Init(value)), UNDERSCORE);
    }
  }

  predicate NoNameBytes(value: Bytes) {
    forall b | b in value :: !IsNameByte(b)
  }

  lemma {:induction false} RunCollapses(u: Bytes, run: Bytes)
    requires Collapsed(u) != [] && u != [] && IsNameByte(Last(u)) && run != [] && NoNameBytes(run)
    ensures Collapsed(u + run) == Collapsed(u) + [UNDERSCORE]
  {
    var before := Init(run);
    assert u + run == u + before + [Last(run)] && Init(u + run) == u + before && Last(u + run) == Last(run) && Last(run) in run;
    if before == [] {
      assert u + before == u;
    } else {
      assert forall b | b in before :: b in run;
      RunCollapses(u, before);
      assert Last(u + before) == Last(before) && Last(before) in before;
    }
  }

  lemma {:induction false} LettersFollow(u: Bytes, v: Bytes)
    requires Collapsed(u) != [] && AllNameBytes(v)
    ensures Collapsed(u + v) == Collapsed(u) + v
    decreases |v|
  {
    if v == [] {
      assert u + v == u;
    } else {
      assert Init(u + v) == u + Init(v) && Last(u + v) == Last(v) && Last(v) in v;
      assert AllNameBytes(Init(v));
      LettersFollow(u, Init(v));
    }
  }

  /** A run of bytes that names may not contain becomes one underscore between others. */
  lemma {:induction false} RunsBecomeUnderscores(u: Bytes, run: Bytes, v: Bytes)
    requires u != [] && AllNameBytes(u) && u[0] != UNDERSCORE && v != [] && AllNameBytes(v) && Last(v) != UNDERSCORE
    requires run != [] && NoNameBytes(run)
    ensures Sanitized(u + run + v) == u + [UNDERSCORE] + v
  {
    hide Collapsed;
    CollapsedIsClean(u);
    assert Last(u) in u;
    RunCollapses(u, run);
    LettersFollow(u + run, v);
    var name := u + [UNDERSCORE] + v;
    assert name[0] == u[0] && Last(name) == Last(v);
    assert TrimFront(name) == name && TrimBack(name) == name;
    assert name[|u|] == UNDERSCORE;
  }

  lemma {:induction false} LettersFromFront(value: Bytes)
    requires value != []
    ensures Letters(value) == (if IsNameByte(value[0]) && value[0] != UNDERSCORE then [value[0]] else []) + Letters(value[1..])
  {
    if |value| == 1 {
      assert Init(value) == [] && value[1..] == [];
    } else {
      LettersFromFront(Init(value));
      assert Init(value)[1..] == Init(value[1..]);
      assert Last(value) == Last(value[1..]);
    }
  }

  lemma {:induction false} TrimFrontKeepsLetters(value: Bytes)
    requires AllNameBytes(value)
    ensures var t := TrimFront(value);
            AllNameBytes(t) && Letters(t) == Letters(value) && (t != [] ==> t[0] != UNDERSCORE)
    ensures value != [] && value[0] == UNDERSCORE ==> |TrimFront(value)| < |value|
    ensures |TrimFront(value)| <= |value|
  {
    if value != [] && value[0] == UNDERSCORE {
      LettersFromFront(value);
      TrimFrontKeepsLetters(value[1..]);
    }
  }

  lemma {:induction false} TrimBackKeepsLetters(value: Bytes)
    requires AllNameBytes(value)
    ensures var t := TrimBack(value);
            && AllNameBytes(t) && Letters(t) == Letters(value)
            && t <= value && (t != [] ==> Last(t) != UNDERSCORE)
  {
    if value != [] && Last(value) == UNDERSCORE {
      TrimBackKeepsLetters(Init(value));
    }
  }

  /** Sanitising gives a clean name, keeps every letter, digit, dot and dash in order (unless only
      one or two dots would be left), and leaves exactly the clean names as they are. */
  lemma {:induction false} SanitizedIsClean(value: Bytes)
    ensures CleanName(Sanitized(value))
    ensures Sanitized(value) != [] ==> Letters(Sanitized(value)) == Letters(value)
    ensures Sanitized(value) == [] ==> Letters(value) in {[], DOT, DOT_DOT}
    ensures Sanitized(value) == value <==> CleanName(value)
  {
    hide Collapsed, Letters, IsNameByte;
    CollapsedIsClean(value);
    TrimFrontKeepsLetters(Collapsed(value));
    TrimBackKeepsLetters(TrimFront(Collapsed(value)));
    var t := TrimBack(TrimFront(Collapsed(value)));
    DotLetters();
  }

  lemma DotLetters()
    ensures Letters([]) == [] && Letters(DOT) == DOT && Letters(DOT_DOT) == DOT_DOT
  {
    assert Init(DOT) == [] && Init(DOT_DOT) == DOT;
  }

  lemma {:induction false} SanitizingTwice(value: Bytes)
    ensures Sanitized(Sanitized(value)) == Sanitized(value)
  {
    SanitizedIsClean(value);
    SanitizedIsClean(Sanitized(value));
  }

  // ----- Layouts -----

  const SESSION: Bytes := ['s' as int, 'e' as int, 's' as int, 's' as int, 'i' as int, 'o' as int, 'n' as int]
  const MODEL: Bytes := ['m' as int, 'o' as int, 'd' as int, 'e' as int, 'l' as int]

  method SafeStorageComponent(value: Bytes, fallback: Bytes) returns (name: Bytes)
    ensures name == SafeName(value, fallback)
  {
    name := SanitizeStorageComponent(value);
    if name == [] {
      name := fallback;
    }
  }

  function SafeName(value: Bytes, fallback: Bytes): Bytes {
    if Sanitized(value) == [] then fallback else Sanitized(value)
  }

  /** Where the facts, and where the cached KV states, of a session are kept. */
  datatype Layout = Layout(model: Bytes, session: Bytes)

  function SessionLayout(key: ModelKey, session: Bytes): Layout {
    var component := if key.modelName != [] then key.modelName else if key.modelDesc != [] then key.modelDesc else key.value;
    Layout(SafeName(component, MODEL), if session == [] then [] else SafeName(session, SESSION))
  }

  function CacheLayout(key: ModelKey, session: Bytes): Layout {
    Layout(SafeName(key.value, MODEL), if session == [] then [] else SafeName(session, SESSION))
  }

  /** Facts are shared by models that are shown under one name; caches are kept apart by the model's key. */
  lemma {:induction false} FactsAreSharedCachesAreNot(a: ModelKey, b: ModelKey, session: Bytes)
    ensures a.modelName == b.modelName != [] ==> SessionLayout(a, session) == SessionLayout(b, session)
    ensures CleanName(a.value) && CleanName(b.value) && a.value != [] && b.value != [] ==>
              (CacheLayout(a, session) == CacheLayout(b, session) <==> a.value == b.value)
  {
    hide Sanitized;
    SanitizedIsClean(a.value);
    SanitizedIsClean(b.value);
  }

  lemma {:induction false} SafeNameOfSession(id: Bytes)
    requires IsValidSessionId(id)
    ensures SafeName(id, SESSION) == id <==> NoUnderscoreAtTheEnds(id)
  {
    hide Sanitized;
    SanitizedIsClean(id);
    assert SESSION[0] == 's' as int && Last(SESSION) == 'n' as int;
  }

  /** A session can be created only under its own name: its first metadata file is refused exactly
      when its identifier begins or ends with an underscore. */
  lemma {:induction false} CreatedUnderItsOwnName(key: ModelKey, id: Bytes, kvPersist: bool)
    requires IsValidSessionId(id)
    ensures CanSave(FreshStore(id, kvPersist), SessionLayout(key, id).session) <==> NoUnderscoreAtTheEnds(id)
    ensures CanSave(FreshStore(id, kvPersist), SessionLayout(key, id).session) ==>
              SessionLayout(key, id).session == id == CacheLayout(key, id).session
  {
    hide SafeName;
    SafeNameOfSession(id);
    SafeNameIsNotEmpty(id);
  }

  lemma {:induction false} SafeNameIsNotEmpty(value: Bytes)
    ensures SafeName(value, SESSION) != []
  {
    hide Sanitized;
  }

  /** Two created sessions never share a directory, neither for their facts nor for their cache. */
  lemma {:induction false} CreatedSessionsNeverCollide(key: ModelKey, a: Bytes, b: Bytes, kvA: bool, kvB: bool)
    requires IsValidSessionId(a) && CanSave(FreshStore(a, kvA), SessionLayout(key, a).session)
    requires IsValidSessionId(b) && CanSave(FreshStore(b, kvB), SessionLayout(key, b).session)
    requires SessionLayout(key, a) == SessionLayout(key, b) || CacheLayout(key, a) == CacheLayout(key, b)
    ensures a == b
  {
    hide SessionLayout, CacheLayout, CanSave;
    CreatedUnderItsOwnName(key, a, kvA);
    CreatedUnderItsOwnName(key, b, kvB);
  }

  /** Identifiers alone do not rule a collision out: "a" and "_a" are both valid. */
  lemma {:induction false} ValidNamesCanCollide(key: ModelKey)
    ensures exists a: Bytes, b: Bytes :: a != b && IsValidSessionId(a) && IsValidSessionId(b) && SessionLayout(key, a) == SessionLayout(key, b)
  {
    var a: Bytes, b: Bytes := ['a' as int], [UNDERSCORE, 'a' as int];
    SanitizedIsClean(a);
    CollapsedIsClean(b);
    assert TrimFront(b) == TrimFront(b[1..]) == a;
    assert TrimBack(a) == a;
    assert Sanitized(b) == a == Sanitized(a);
    hide Sanitized;
    assert a != b && IsValidSessionId(a) && IsValidSessionId(b) && SessionLayout(key, a) == SessionLayout(key, b);
  }
}
