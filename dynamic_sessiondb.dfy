/** Node identity keys of the node identifier: the session pseudo-key built
    from a node's key properties, the static key hashed from them, the
    session timestamp choice and the attribution that replaces a node's key.
    SHA-256 and the session table are parameters: `sha256` stands for the
    digest of `sha2::Sha256`, `sessionDb` for what `handle_unid_session`
    answers. */
module DynamicSessionDb {
  import opened Wrappers
  import opened Text
  import opened Pipeline
  import opened Graph

  /** Why identification of a node fails. */
  datatype IdentityError =
    | MissingProperty(name: string)
    | TerminatingSession
    | SessionDbError(reason: string)

  // ---------------------------------------------------------------------
  // Key properties

  /** The texts of the properties `names`, concatenated in list order, or the
      first name that `properties` lacks. */
  function KeyText(properties: map<string, Property>, names: seq<string>): Result<string, IdentityError> {
    if |names| == 0 then Ok("")
    else
      var name := names[|names| - 1];
      match KeyText(properties, names[..|names| - 1])
      case Err(e) => Err(e)
      case Ok(text) =>
        if name in properties then Ok(text + PropertyText(properties[name])) else Err(MissingProperty(name))
  }

  /** `names[i]` is the first of `names` missing from `properties`. */
  predicate FirstMissing(properties: map<string, Property>, names: seq<string>, i: int) {
    && 0 <= i < |names| && names[i] !in properties
    && forall j :: 0 <= j < i ==> names[j] in properties
  }

  /** Key properties fail exactly when one is missing, and the error names the
      first missing one. */
  lemma {:induction false} KeyTextError(properties: map<string, Property>, names: seq<string>)
    ensures KeyText(properties, names).Err? <==> exists i :: 0 <= i < |names| && names[i] !in properties
    ensures KeyText(properties, names).Err? ==>
      exists i :: FirstMissing(properties, names, i) && KeyText(properties, names).error == MissingProperty(names[i])
  {
    if |names| > 0 {
      var init := names[..|names| - 1];
      KeyTextError(properties, init);
      assert forall j :: 0 <= j < |init| ==> init[j] == names[j];
      if KeyText(properties, init).Err? {
        var i :| FirstMissing(properties, init, i) && KeyText(properties, init).error == MissingProperty(init[i]);
        assert FirstMissing(properties, names, i);
      } else if names[|names| - 1] !in properties {
        assert FirstMissing(properties, names, |names| - 1);
      }
    }
  }

  /** Once a prefix of the names fails, the whole list fails with the same
      error: the loop stops at the first missing property. */
  lemma {:induction false} KeyTextPrefixError(properties: map<string, Property>, names: seq<string>, n: nat)
    requires n <= |names| && KeyText(properties, names[..n]).Err?
    ensures KeyText(properties, names) == KeyText(properties, names[..n])
    decreases |names|
  {
    if n < |names| {
      var init := names[..|names| - 1];
      assert init[..n] == names[..n];
      KeyTextPrefixError(properties, init, n);
    } else {
      assert names[..n] == names;
    }
  }

  /** The loop step shared by both key builders. */
  lemma KeyTextStep(properties: map<string, Property>, names: seq<string>, i: nat)
    requires i < |names| && KeyText(properties, names[..i]).Ok?
    ensures names[i] in properties ==>
      KeyText(properties, names[..i + 1]) == Ok(KeyText(properties, names[..i]).value + PropertyText(properties[names[i]]))
    ensures names[i] !in properties ==> KeyText(properties, names) == Err(MissingProperty(names[i]))
  {
    assert names[..i + 1][..i] == names[..i];
    if names[i] !in properties {
      KeyTextPrefixError(properties, names, i + 1);
    }
  }

  // ---------------------------------------------------------------------
  // The session pseudo-key

  /** `primary_session_key`: the tenant's URN, the key properties' texts in
      list order, then the node key. */
  function SessionKey(tenantId: Uuid, node: NodeDescription, strategy: Session): Result<string, IdentityError> {
    match KeyText(node.properties, strategy.primaryKeyProperties)
    case Ok(text) => Ok(Urn(tenantId) + text + node.nodeKey)
    case Err(e) => Err(e)
  }

  /** A session key starts with the tenant's URN and ends with the node key;
      it fails exactly when a key property is missing, naming the first one. */
  lemma SessionKeyShape(tenantId: Uuid, node: NodeDescription, strategy: Session)
    ensures var r := SessionKey(tenantId, node, strategy);
      && (r.Ok? ==> |r.value| >= 45 + |node.nodeKey| && r.value[..45] == Urn(tenantId)
                    && r.value[|r.value| - |node.nodeKey|..] == node.nodeKey)
      && (r.Err? <==> exists i :: 0 <= i < |strategy.primaryKeyProperties| &&
                                  strategy.primaryKeyProperties[i] !in node.properties)
      && (r.Err? ==> exists i :: FirstMissing(node.properties, strategy.primaryKeyProperties, i) &&
                                r.error == MissingProperty(strategy.primaryKeyProperties[i]))
  {
    KeyTextError(node.properties, strategy.primaryKeyProperties);
  }

  /** `primary_session_key`, built by appending to a string. Resolution by
      asset id is unsupported (the source panics), so it is excluded. */
  method PrimarySessionKey(tenantId: Uuid, node: NodeDescription, strategy: Session)
    returns (r: Result<string, IdentityError>)
    requires !strategy.primaryKeyRequiresAssetId
    ensures r == SessionKey(tenantId, node, strategy)
  {
    var names := strategy.primaryKeyProperties;
    var primaryKey := Urn(tenantId);
    var i := 0;
    while i < |names|
      invariant i <= |names|
      invariant KeyText(node.properties, names[..i]).Ok?
      invariant primaryKey == Urn(tenantId) + KeyText(node.properties, names[..i]).value
    {
      KeyTextStep(node.properties, names, i);
      if names[i] in node.properties {
        ghost var text := KeyText(node.properties, names[..i]).value;
        var value := PropertyText(node.properties[names[i]]);
        assert primaryKey + value == Urn(tenantId) + (text + value);
        primaryKey := primaryKey + value;
      } else {
        return Err(MissingProperty(names[i]));
      }
      i := i + 1;
    }
    assert names[..i] == names;
    primaryKey := primaryKey + node.nodeKey;
    return Ok(primaryKey);
  }

  // ---------------------------------------------------------------------
  // Sorting key property names (`Vec<String>::sort`)

  /** Rust's `Ord` on strings: lexicographic, a proper prefix first. Ordering
      by code point is the same as ordering the UTF-8 bytes. */
  predicate LexLe(a: string, b: string)
    decreases |a|
  {
    |a| == 0 || (|b| > 0 && (a[0] < b[0] || (a[0] == b[0] && LexLe(a[1..], b[1..]))))
  }

  lemma {:induction false} LexLeTotal(a: string, b: string)
    ensures LexLe(a, b) || LexLe(b, a)
    decreases |a|
  {
    if |a| > 0 && |b| > 0 && a[0] == b[0] {
      LexLeTotal(a[1..], b[1..]);
    }
  }

  lemma {:induction false} LexLeAntisymmetric(a: string, b: string)
    requires LexLe(a, b) && LexLe(b, a)
    ensures a == b
    decreases |a|
  {
    if |a| > 0 {
      LexLeAntisymmetric(a[1..], b[1..]);
      assert a == [a[0]] + a[1..];
      assert b == [b[0]] + b[1..];
    }
  }

  lemma {:induction false} LexLeTransitive(a: string, b: string, c: string)
    requires LexLe(a, b) && LexLe(b, c)
    ensures LexLe(a, c)
    decreases |a|
  {
    if |a| > 0 && a[0] == b[0] && b[0] == c[0] {
      LexLeTransitive(a[1..], b[1..], c[1..]);
    }
  }

  predicate Sorted(s: seq<string>) {
    forall i, j :: 0 <= i < j < |s| ==> LexLe(s[i], s[j])
  }

  /** Insert `x` into the sorted `s`. */
  function Insert(x: string, s: seq<string>): (r: seq<string>)
    requires Sorted(s)
    ensures Sorted(r) && multiset(r) == multiset(s) + multiset{x}
  {
    if s == [] then [x]
    else if LexLe(x, s[0]) then
      assert forall j :: 0 < j < |s| ==> LexLe(x, s[j]) by {
        forall j | 0 < j < |s| ensures LexLe(x, s[j]) { LexLeTransitive(x, s[0], s[j]); }
      }
      [x] + s
    else
      LexLeTotal(x, s[0]);
      var rest := Insert(x, s[1..]);
      assert s == [s[0]] + s[1..];
      assert forall y :: y in multiset(rest) ==> LexLe(s[0], y) by {
        forall y | y in multiset(rest) ensures LexLe(s[0], y) {
          if y != x {
            assert y in multiset(s[1..]);
            var j :| 0 <= j < |s[1..]| && s[1..][j] == y;
            assert y == s[j + 1];
          }
        }
      }
      assert forall j :: 0 <= j < |rest| ==> rest[j] in multiset(rest);
      [s[0]] + rest
  }

  /** `Vec<String>::sort`: the names in ascending order. */
  function SortNames(s: seq<string>): (r: seq<string>)
    ensures Sorted(r) && multiset(r) == multiset(s)
  {
    if s == [] then []
    else
      assert s == [s[0]] + s[1..];
      Insert(s[0], SortNames(s[1..]))
  }

  lemma {:induction false} LexLeReflexive(a: string)
    ensures LexLe(a, a)
    decreases |a|
  {
    if |a| > 0 {
      LexLeReflexive(a[1..]);
    }
  }

  /** The first of a sorted sequence is its least element. */
  lemma SortedFirstLeast(s: seq<string>, x: string)
    requires Sorted(s) && x in multiset(s)
    ensures LexLe(s[0], x)
  {
    var i :| 0 <= i < |s| && s[i] == x;
    if i == 0 {
      LexLeReflexive(x);
    }
  }

  /** The rest of a sorted sequence is sorted and holds the other elements. */
  lemma SortedTail(s: seq<string>)
    requires Sorted(s) && s != []
    ensures Sorted(s[1..]) && multiset(s[1..]) == multiset(s) - multiset{s[0]}
  {
    assert s == [s[0]] + s[1..];
    assert forall i :: 0 <= i < |s| - 1 ==> s[1..][i] == s[i + 1];
  }

  /** There is one sorted arrangement of a multiset of names. */
  lemma {:induction false} SortedUnique(a: seq<string>, b: seq<string>)
    requires Sorted(a) && Sorted(b) && multiset(a) == multiset(b)
    ensures a == b
    decreases |a|
  {
    if a != [] {
      assert |b| == |multiset(b)| == |multiset(a)| == |a|;
      assert a[0] in multiset(a) && b[0] in multiset(b);
      SortedFirstLeast(b, a[0]);
      SortedFirstLeast(a, b[0]);
      LexLeAntisymmetric(a[0], b[0]);
      SortedTail(a);
      SortedTail(b);
      SortedUnique(a[1..], b[1..]);
      assert a == [a[0]] + a[1..] && b == [b[0]] + b[1..];
    }
  }

  // ---------------------------------------------------------------------
  // The static key

  /** A SHA-256 digest. */
  type Digest = s: seq<byte> | |s| == 32 witness seq(32, _ => 0 as byte)

  /** The bytes fed to the hasher: the key properties' texts in sorted order,
      then the node type, then the tenant id's sixteen bytes. */
  function StaticInput(tenantId: Uuid, node: NodeDescription, strategy: Static): Result<seq<byte>, IdentityError> {
    match KeyText(node.properties, SortNames(strategy.primaryKeyProperties))
    case Ok(text) => Ok(Utf8(text) + Utf8(node.nodeType) + tenantId)
    case Err(e) => Err(e)
  }

  /** `get_static_node_key`: the hex digest of the static input. */
  function StaticKey(tenantId: Uuid, node: NodeDescription, strategy: Static, sha256: seq<byte> -> Digest)
    : Result<string, IdentityError>
  {
    match StaticInput(tenantId, node, strategy)
    case Ok(input) => Ok(HexEncode(sha256(input)))
    case Err(e) => Err(e)
  }

  /** The same key properties in any order give the same static key. */
  lemma StaticKeyOrderIndependent(tenantId: Uuid, node: NodeDescription, s1: Static, s2: Static,
                                  sha256: seq<byte> -> Digest)
    requires multiset(s1.primaryKeyProperties) == multiset(s2.primaryKeyProperties)
    ensures StaticKey(tenantId, node, s1, sha256) == StaticKey(tenantId, node, s2, sha256)
  {
    SortedUnique(SortNames(s1.primaryKeyProperties), SortNames(s2.primaryKeyProperties));
  }

  /** Two arrangements of the same names lack a property alike. */
  lemma MissingInArrangement(properties: map<string, Property>, names: seq<string>, sorted: seq<string>)
    requires multiset(names) == multiset(sorted)
    ensures (exists n :: n in names && n !in properties) <==>
            (exists i :: 0 <= i < |sorted| && sorted[i] !in properties)
  {
    if exists n :: n in names && n !in properties {
      var n :| n in names && n !in properties;
      assert n in multiset(sorted);
      var i :| 0 <= i < |sorted| && sorted[i] == n;
    }
    if exists i :: 0 <= i < |sorted| && sorted[i] !in properties {
      var i :| 0 <= i < |sorted| && sorted[i] !in properties;
      assert sorted[i] in multiset(names);
    }
  }

  /** A static key is 64 lower-case hex digits that decode to the digest of
      the static input. */
  lemma StaticKeyHex(tenantId: Uuid, node: NodeDescription, strategy: Static, sha256: seq<byte> -> Digest)
    requires StaticKey(tenantId, node, strategy, sha256).Ok?
    ensures var key := StaticKey(tenantId, node, strategy, sha256).value;
      && |key| == 64 && (forall i :: 0 <= i < 64 ==> IsHexDigit(key[i]))
      && HexDecode(key) == sha256(StaticInput(tenantId, node, strategy).value)
  {
    HexRoundTrip(sha256(StaticInput(tenantId, node, strategy).value));
  }

  /** The static key fails exactly when a key property is missing, and then
      names the first missing property in sorted order. */
  lemma StaticKeyMissing(tenantId: Uuid, node: NodeDescription, strategy: Static, sha256: seq<byte> -> Digest)
    ensures StaticKey(tenantId, node, strategy, sha256).Err? <==>
      exists n :: n in strategy.primaryKeyProperties && n !in node.properties
    ensures StaticKey(tenantId, node, strategy, sha256).Err? ==>
      exists i :: FirstMissing(node.properties, SortNames(strategy.primaryKeyProperties), i) &&
        StaticKey(tenantId, node, strategy, sha256).error == MissingProperty(SortNames(strategy.primaryKeyProperties)[i])
  {
    var sorted := SortNames(strategy.primaryKeyProperties);
    KeyTextError(node.properties, sorted);
    var r := StaticKey(tenantId, node, strategy, sha256);
    if r.Err? {
      assert r.error == KeyText(node.properties, sorted).error;
      var i :| FirstMissing(node.properties, sorted, i) && KeyText(node.properties, sorted).error == MissingProperty(sorted[i]);
      assert FirstMissing(node.properties, sorted, i) && r.error == MissingProperty(sorted[i]);
    }
    MissingInArrangement(node.properties, strategy.primaryKeyProperties, sorted);
  }

  /** `get_static_node_key`: sort a copy of the key property names, feed each
      property's text to the hasher, then the node type and the tenant id,
      and hex-encode the digest. */
  method StaticNodeKey(tenantId: Uuid, node: NodeDescription, strategy: Static, sha256: seq<byte> -> Digest)
    returns (r: Result<string, IdentityError>)
    ensures r == StaticKey(tenantId, node, strategy, sha256)
  {
    var sorted := SortNames(strategy.primaryKeyProperties);
    var hashed: seq<byte> := [];
    var i := 0;
    while i < |sorted|
      invariant i <= |sorted|
      invariant KeyText(node.properties, sorted[..i]).Ok?
      invariant hashed == Utf8(KeyText(node.properties, sorted[..i]).value)
    {
      KeyTextStep(node.properties, sorted, i);
      if sorted[i] in node.properties {
        Utf8Append(KeyText(node.properties, sorted[..i]).value, PropertyText(node.properties[sorted[i]]));
        hashed := hashed + Utf8(PropertyText(node.properties[sorted[i]]));
      } else {
        return Err(MissingProperty(sorted[i]));
      }
      i := i + 1;
    }
    assert sorted[..i] == sorted;
    hashed := hashed + Utf8(node.nodeType);
    hashed := hashed + tenantId;
    return Ok(HexEncode(sha256(hashed)));
  }

  // ---------------------------------------------------------------------
  // Attribution

  /** `UnidSession`: the request sent to the session table. */
  datatype UnidSession = UnidSession(pseudoKey: string, timestamp: u64, isCreation: bool)

  /** The timestamp choice of `attribute_dynamic_session`: the creation time
      when set, else the last-seen time; a session with neither (a
      terminating one) is unsupported. */
  function ChooseUnid(pseudoKey: string, strategy: Session): (r: Result<UnidSession, IdentityError>)
    ensures r.Ok? <==> strategy.createTime != 0 || strategy.lastSeenTime != 0
    ensures r.Err? ==> r.error == TerminatingSession
    ensures r.Ok? ==> && r.value.pseudoKey == pseudoKey && r.value.timestamp != 0
                      && (r.value.isCreation <==> strategy.createTime != 0)
                      && r.value.timestamp == if r.value.isCreation then strategy.createTime else strategy.lastSeenTime
  {
    match (strategy.createTime != 0, strategy.lastSeenTime != 0)
    case (true, _) => Ok(UnidSession(pseudoKey, strategy.createTime, true))
    case (_, true) => Ok(UnidSession(pseudoKey, strategy.lastSeenTime, false))
    case _ => Err(TerminatingSession)
  }

  /** `attribute_dynamic_session`: the node with its key replaced by the
      session id the session table answers for the chosen unid. */
  function DynamicSessionResult(tenantId: Uuid, node: NodeDescription, strategy: Session,
                                sessionDb: (UnidSession, bool) -> Result<string, string>,
                                shouldGuess: bool): Result<NodeDescription, IdentityError>
  {
    match SessionKey(tenantId, node, strategy)
    case Err(e) => Err(e)
    case Ok(key) =>
      match ChooseUnid(key, strategy)
      case Err(e) => Err(e)
      case Ok(unid) =>
        match sessionDb(unid, shouldGuess)
        case Err(reason) => Err(SessionDbError(reason))
        case Ok(sessionId) => Ok(node.(nodeKey := sessionId))
  }

  /** A missing key property is reported before a terminating session, and
      the session table is consulted only with a valid unid: the session's
      pseudo-key and its chosen timestamp. */
  lemma DynamicSessionErrors(tenantId: Uuid, node: NodeDescription, strategy: Session,
                             sessionDb: (UnidSession, bool) -> Result<string, string>, shouldGuess: bool)
    ensures var r := DynamicSessionResult(tenantId, node, strategy, sessionDb, shouldGuess);
      var key := SessionKey(tenantId, node, strategy);
      && (key.Err? ==> r == Err(key.error))
      && (key.Ok? && strategy.createTime == 0 && strategy.lastSeenTime == 0 ==> r == Err(TerminatingSession))
      && (key.Ok? && (strategy.createTime != 0 || strategy.lastSeenTime != 0) ==>
            var unid := UnidSession(key.value, if strategy.createTime != 0 then strategy.createTime else strategy.lastSeenTime,
                                    strategy.createTime != 0);
            && (sessionDb(unid, shouldGuess).Ok? ==> r == Ok(node.(nodeKey := sessionDb(unid, shouldGuess).value)))
            && (sessionDb(unid, shouldGuess).Err? ==> r == Err(SessionDbError(sessionDb(unid, shouldGuess).error))))
  {
  }

  method AttributeDynamicSession(tenantId: Uuid, node: NodeDescription, strategy: Session,
                                 sessionDb: (UnidSession, bool) -> Result<string, string>, shouldGuess: bool)
    returns (r: Result<NodeDescription, IdentityError>)
    requires !strategy.primaryKeyRequiresAssetId
    ensures r == DynamicSessionResult(tenantId, node, strategy, sessionDb, shouldGuess)
    ensures r.Ok? ==> r.value == node.(nodeKey := r.value.nodeKey)
  {
    var attributed := node;
    var primaryKey := PrimarySessionKey(tenantId, attributed, strategy);
    if primaryKey.Err? {
      return Err(primaryKey.error);
    }
    var unid := ChooseUnid(primaryKey.value, strategy);
    if unid.Err? {
      return Err(unid.error);
    }
    var sessionId := sessionDb(unid.value, shouldGuess);
    if sessionId.Err? {
      return Err(SessionDbError(sessionId.error));
    }
    attributed := attributed.(nodeKey := sessionId.value);
    return Ok(attributed);
  }

  /** `attribute_static_mapping`: the node with its key set to the static key. */
  method AttributeStaticMapping(tenantId: Uuid, node: NodeDescription, strategy: Static,
                                sha256: seq<byte> -> Digest)
    returns (r: Result<NodeDescription, IdentityError>)
    ensures StaticKey(tenantId, node, strategy, sha256).Ok? ==>
      r == Ok(node.(nodeKey := StaticKey(tenantId, node, strategy, sha256).value))
    ensures StaticKey(tenantId, node, strategy, sha256).Err? ==>
      r == Err(StaticKey(tenantId, node, strategy, sha256).error)
  {
    var key := StaticNodeKey(tenantId, node, strategy, sha256);
    if key.Err? {
      return Err(key.error);
    }
    return Ok(node.(nodeKey := key.value));
  }

  /** `attribute_dynamic_node`: dispatch on the node's first identification
      strategy. Indexing an empty strategy list panics, so it is excluded. */
  method AttributeDynamicNode(tenantId: Uuid, node: NodeDescription, sha256: seq<byte> -> Digest,
                              sessionDb: (UnidSession, bool) -> Result<string, string>, shouldGuess: bool)
    returns (r: Result<NodeDescription, IdentityError>)
    requires |node.idStrategy| > 0
    requires node.idStrategy[0].SessionStrategy? ==> !node.idStrategy[0].session.primaryKeyRequiresAssetId
    ensures r.Ok? ==> r.value == node.(nodeKey := r.value.nodeKey)
    ensures node.idStrategy[0].SessionStrategy? ==>
      r == DynamicSessionResult(tenantId, node, node.idStrategy[0].session, sessionDb, shouldGuess)
    ensures node.idStrategy[0].StaticStrategy? ==>
      var key := StaticKey(tenantId, node, node.idStrategy[0].mapping, sha256);
      r == if key.Ok? then Ok(node.(nodeKey := key.value)) else Err(key.error)
  {
    match node.idStrategy[0] {
      case SessionStrategy(session) =>
        r := AttributeDynamicSession(tenantId, node, session, sessionDb, shouldGuess);
      case StaticStrategy(mapping) =>
        r := AttributeStaticMapping(tenantId, node, mapping, sha256);
    }
  }
}
