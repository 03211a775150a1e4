/** The graph merger's Dgraph upsert builder: quoting of values, rendering of
    node properties, and the query/mutation list produced for one node. */
module UpsertUtil {
  import opened Wrappers
  import opened Text
  import opened Graph

  /** The two characters `escape_quote` rewrites. */
  predicate NeedsEscape(c: char) {
    c == '"' || c == '\\'
  }

  function SpecialCount(s: string): nat {
    if s == [] then 0 else (if NeedsEscape(s[0]) then 1 else 0) + SpecialCount(s[1..])
  }

  function EscapeChar(c: char): string {
    if c == '"' then ['\\', '"'] else if c == '\\' then ['\\', '\\'] else [c]
  }

  /** What `escape_quote` writes between its two delimiting quotes. */
  function EscapedBody(s: string): (t: string)
    ensures |t| == |s| + SpecialCount(s)
  {
    if s == [] then [] else EscapeChar(s[0]) + EscapedBody(s[1..])
  }

  /** The value `escape_quote` returns. */
  function Escaped(s: string): string {
    "\"" + EscapedBody(s) + "\""
  }

  lemma {:induction false} EscapedBodySnoc(s: string, c: char)
    ensures EscapedBody(s + [c]) == EscapedBody(s) + EscapeChar(c)
  {
    if s != [] {
      assert (s + [c])[1..] == s[1..] + [c];
      EscapedBodySnoc(s[1..], c);
    } else {
      assert [c][1..] == [];
    }
  }

  /** `escape_quote`: opening quote, each char escaped in order, closing quote. */
  method EscapeQuote(s: string) returns (output: string)
    ensures output == Escaped(s)
    ensures |output| >= 2 && output[0] == '"' && output[|output| - 1] == '"'
    ensures |output| == |s| + 2 + SpecialCount(s)
  {
    output := "\"";
    for i := 0 to |s|
      invariant output == "\"" + EscapedBody(s[..i])
    {
      var c := s[i];
      assert s[..i + 1] == s[..i] + [c];
      EscapedBodySnoc(s[..i], c);
      if c == '"' {
        output := output + "\\\"";
      } else if c == '\\' {
        output := output + "\\\\";
      } else {
        output := output + [c];
      }
    }
    assert s[..|s|] == s;
    output := output + "\"";
  }

  /** The number of backslashes that end `p`. */
  function TrailingBackslashes(p: string): nat {
    if p == [] || p[|p| - 1] != '\\' then 0 else 1 + TrailingBackslashes(p[..|p| - 1])
  }

  /** Every quote in `t` is preceded by an odd run of backslashes, so it is escaped. */
  predicate QuotesEscaped(t: string) {
    forall i :: 0 <= i < |t| && t[i] == '"' ==> TrailingBackslashes(t[..i]) % 2 == 1
  }

  lemma TrailingBackslashSnoc(p: string)
    ensures TrailingBackslashes(p + ['\\']) == TrailingBackslashes(p) + 1
  {
    assert (p + ['\\'])[..|p|] == p;
  }

  /** Extending `t` keeps the quotes of `t` escaped. */
  lemma QuotesEscapedPrefix(t: string, u: string)
    requires |t| <= |u| && u[..|t|] == t && QuotesEscaped(t)
    ensures forall i :: 0 <= i < |t| && u[i] == '"' ==> TrailingBackslashes(u[..i]) % 2 == 1
  {
    forall i | 0 <= i < |t| && u[i] == '"'
      ensures TrailingBackslashes(u[..i]) % 2 == 1
    {
      assert u[..i] == t[..i];
      assert t[i] == u[i];
    }
  }

  /** Appending one escaped character keeps every quote escaped and the run of
      trailing backslashes even. */
  lemma EscapeCharKeepsQuotesEscaped(t: string, c: char)
    requires QuotesEscaped(t) && TrailingBackslashes(t) % 2 == 0
    ensures QuotesEscaped(t + EscapeChar(c)) && TrailingBackslashes(t + EscapeChar(c)) % 2 == 0
  {
    var u := t + EscapeChar(c);
    assert u[..|t|] == t;
    QuotesEscapedPrefix(t, u);
    if c == '"' {
      assert u[..|t| + 1] == t + ['\\'];
      TrailingBackslashSnoc(t);
      assert u[|t|] == '\\';
    } else if c == '\\' {
      assert u == (t + ['\\']) + ['\\'];
      TrailingBackslashSnoc(t);
      TrailingBackslashSnoc(t + ['\\']);
      assert u[|t|] == '\\' && u[|t| + 1] == '\\';
    } else {
      assert u[|t|] == c;
    }
  }

  /** No unescaped quote can appear between the delimiters, and the body never
      ends in a dangling backslash that would escape the closing quote. */
  lemma {:induction false} EscapedBodyQuotesEscaped(s: string)
    ensures QuotesEscaped(EscapedBody(s))
    ensures TrailingBackslashes(EscapedBody(s)) % 2 == 0
    decreases |s|
  {
    if s != [] {
      var s', c := s[..|s| - 1], s[|s| - 1];
      assert s == s' + [c];
      EscapedBodySnoc(s', c);
      EscapedBodyQuotesEscaped(s');
      EscapeCharKeepsQuotesEscaped(EscapedBody(s'), c);
    }
  }

  /** The escaped output, read between its delimiters, has no unescaped quote. */
  lemma EscapedHasNoBareQuote(s: string)
    ensures var e := Escaped(s); |e| >= 2 && QuotesEscaped(e[1..|e| - 1])
  {
    var e := Escaped(s);
    assert e[1..|e| - 1] == EscapedBody(s);
    EscapedBodyQuotesEscaped(s);
  }

  /** Reads back an escaped body; fails on a bare quote or a dangling backslash. */
  function Unescape(t: string): Option<string> {
    if t == [] then Some([])
    else if t[0] == '\\' then
      if |t| >= 2 && NeedsEscape(t[1]) then
        match Unescape(t[2..])
        case Some(r) => Some([t[1]] + r)
        case None => None
      else None
    else if t[0] == '"' then None
    else
      match Unescape(t[1..])
      case Some(r) => Some([t[0]] + r)
      case None => None
  }

  /** Escaping is reversible: reading the body back gives the input. */
  lemma {:induction false} UnescapeEscapedBody(s: string)
    ensures Unescape(EscapedBody(s)) == Some(s)
  {
    if s != [] {
      var t := EscapedBody(s);
      UnescapeEscapedBody(s[1..]);
      if NeedsEscape(s[0]) {
        assert t[2..] == EscapedBody(s[1..]);
      } else {
        assert t[1..] == EscapedBody(s[1..]);
      }
      assert s == [s[0]] + s[1..];
    }
  }

  /** Two different strings never escape to the same value. */
  lemma EscapedInjective(a: string, b: string)
    requires Escaped(a) == Escaped(b)
    ensures a == b
  {
    var e := Escaped(a);
    assert e[1..|e| - 1] == EscapedBody(a) == EscapedBody(b);
    UnescapeEscapedBody(a);
    UnescapeEscapedBody(b);
  }

  lemma {:induction false} EscapedBodyPlain(s: string)
    requires forall i :: 0 <= i < |s| ==> !NeedsEscape(s[i])
    ensures EscapedBody(s) == s
  {
    if s != [] {
      EscapedBodyPlain(s[1..]);
      assert s == [s[0]] + s[1..];
    }
  }

  /** `escape_prop`: integer variants become their quoted decimal rendering
      (no character of it needs escaping), strings are escaped as they are. */
  function EscapeProp(p: Property): (r: string)
    ensures p.IsInteger() ==> r == "\"" + IntToDecimal(p.IntValue()) + "\""
    ensures !p.IsInteger() ==> r == Escaped(p.s)
  {
    var text := PropertyText(p);
    if p.IsInteger() then
      var v := p.IntValue();
      var digits := NatToDecimal(if v < 0 then -v else v);
      assert text == (if v < 0 then "-" + digits else digits);
      EscapedBodyPlain(text);
      Escaped(text)
    else
      Escaped(text)
  }

  /** A Dgraph mutation: N-Quads to set, under a condition. */
  datatype Mutation = Mutation(setNquads: string, cond: string)

  /** The condition that the query variable matched `n` nodes. */
  function LenCondition(varName: string, n: string): string {
    "@if(eq(len(" + varName + "), " + n + "))"
  }

  function CreationVarName(queryParam: u128): string {
    "node_exists_" + NatToDecimal(queryParam)
  }

  datatype CreationQuads = CreationQuads(varName: string, query: string, mutation: Mutation)

  /** `node_creation_quads`: look the node up by its escaped key; create it,
      with its type, only if the lookup found nothing. */
  function NodeCreationQuads(queryParam: u128, escapedKey: string, nodeType: string): (r: CreationQuads)
    ensures r.varName == CreationVarName(queryParam)
    ensures r.mutation.cond == LenCondition(r.varName, "0")
  {
    var v := CreationVarName(queryParam);
    CreationQuads(
      v,
      "\n            " + v + " as var(func: eq(node_key, " + escapedKey + "), first: 1) @cascade\n"
      + "            q_" + v + "(func: uid(" + v + "), first: 1) @cascade\n"
      + "            {\n                uid,\n                node_key,\n            }\n    ",
      Mutation(
        "_:" + v + " <node_key> " + escapedKey + " .\n_:" + v + " <dgraph.type> \"" + nodeType + "\" .",
        LenCondition(v, "0")))
  }

  datatype PropertyQuads = PropertyQuads(query: string, ifExists: Mutation, ifAbsent: Mutation)

  /** `gen_node_property_upsert_quads`: set the predicate on the existing node
      when the lookup found one, or on the node being created when it found none. */
  function PropertyUpsertQuads(varName: string, propName: string, propValue: string): (r: PropertyQuads)
  {
    PropertyQuads(
      "\n            var(func: uid(" + varName + "), first: 1)\n    ",
      Mutation("uid(" + varName + ") <" + propName + "> " + propValue + " .", LenCondition(varName, "1")),
      Mutation("_:" + varName + " <" + propName + "> " + propValue + " .", LenCondition(varName, "0")))
  }

  /** Property names `build_upserts` skips. */
  predicate Upserted(name: string) {
    name != "node_key" && name != "dgraph.type"
  }

  function UpsertedNames(properties: map<string, Property>): set<string> {
    set n | n in properties && Upserted(n)
  }

  predicate Distinct(order: seq<string>) {
    forall i, j :: 0 <= i < j < |order| ==> order[i] != order[j]
  }

  /** `order` lists every name of `names` exactly once (one HashMap iteration order). */
  predicate Enumerates(order: seq<string>, names: set<string>) {
    && Distinct(order)
    && (forall n :: n in names ==> n in order)
    && (forall i :: 0 <= i < |order| ==> order[i] in names)
  }

  function PropertyQuadsFor(varName: string, properties: map<string, Property>, name: string): PropertyQuads
    requires name in properties
  {
    PropertyUpsertQuads(varName, name, EscapeProp(properties[name]))
  }

  /** The mutation pairs for the properties visited in `order`. */
  function PropertyMutations(varName: string, properties: map<string, Property>, order: seq<string>): (r: seq<Mutation>)
    requires forall i :: 0 <= i < |order| ==> order[i] in properties
    ensures |r| == 2 * |order|
  {
    if order == [] then []
    else
      var q := PropertyQuadsFor(varName, properties, order[|order| - 1]);
      PropertyMutations(varName, properties, order[..|order| - 1]) + [q.ifExists, q.ifAbsent]
  }

  function PropertyQueries(varName: string, properties: map<string, Property>, order: seq<string>): string
    requires forall i :: 0 <= i < |order| ==> order[i] in properties
  {
    if order == [] then ""
    else
      var q := PropertyQuadsFor(varName, properties, order[|order| - 1]);
      PropertyQueries(varName, properties, order[..|order| - 1]) + q.query + "\n"
  }

  lemma PropertyStep(varName: string, properties: map<string, Property>, order: seq<string>, name: string,
                     queries0: string, mutations0: seq<Mutation>)
    requires forall i :: 0 <= i < |order| ==> order[i] in properties
    requires name in properties
    ensures var q, o := PropertyQuadsFor(varName, properties, name), order + [name];
      && (forall i :: 0 <= i < |o| ==> o[i] in properties)
      && mutations0 + PropertyMutations(varName, properties, o)
         == mutations0 + PropertyMutations(varName, properties, order) + [q.ifExists, q.ifAbsent]
      && queries0 + PropertyQueries(varName, properties, o)
         == queries0 + PropertyQueries(varName, properties, order) + (q.query + "\n")
  {
    assert (order + [name])[..|order|] == order;
  }

  /** Each visited property contributes its pair, in visiting order: first
      the write to the existing node, then the write to the blank node. */
  lemma {:induction false} PropertyMutationsShape(varName: string, properties: map<string, Property>, order: seq<string>)
    requires forall i :: 0 <= i < |order| ==> order[i] in properties
    ensures var m := PropertyMutations(varName, properties, order);
      && |m| == 2 * |order|
      && forall j :: 0 <= j < |order| ==>
           && m[2 * j] == PropertyQuadsFor(varName, properties, order[j]).ifExists
           && m[2 * j + 1] == PropertyQuadsFor(varName, properties, order[j]).ifAbsent
  {
    if order != [] {
      var k := |order| - 1;
      var prefix := order[..k];
      PropertyMutationsShape(varName, properties, prefix);
      var q := PropertyQuadsFor(varName, properties, order[k]);
      var before := PropertyMutations(varName, properties, prefix);
      var m := PropertyMutations(varName, properties, order);
      assert m == before + [q.ifExists, q.ifAbsent];
      forall j | 0 <= j < |order|
        ensures m[2 * j] == PropertyQuadsFor(varName, properties, order[j]).ifExists
        ensures m[2 * j + 1] == PropertyQuadsFor(varName, properties, order[j]).ifAbsent
      {
        if j < k {
          assert prefix[j] == order[j];
          assert m[2 * j] == before[2 * j] && m[2 * j + 1] == before[2 * j + 1];
        }
      }
    }
  }

  /** A duplicate-free listing of a set is as long as the set is large. */
  lemma {:induction false} EnumerationSize(order: seq<string>, names: set<string>)
    requires Enumerates(order, names)
    ensures |order| == |names|
  {
    if order != [] {
      var last := order[|order| - 1];
      var prefix := order[..|order| - 1];
      forall n | n in names - {last} ensures n in prefix {
        var i :| 0 <= i < |order| && order[i] == n;
        assert i < |order| - 1;
        assert prefix[i] == n;
      }
      EnumerationSize(prefix, names - {last});
    } else {
      assert forall n :: n !in names;
      assert names == {};
    }
  }

  /** The mutations of one node: the creation mutation, conditioned on the
      lookup finding nothing, then for each property other than `node_key` and
      `dgraph.type` a write to `uid(var)` when the lookup found the node and a
      write to the blank node `_:var` when it found none; 1 + 2k in all. */
  lemma UpsertMutationsShape(queryParam: u128, nodeKey: string, nodeType: string,
                             properties: map<string, Property>, order: seq<string>)
    requires Enumerates(order, UpsertedNames(properties))
    ensures forall i :: 0 <= i < |order| ==> order[i] in properties
    ensures var c := NodeCreationQuads(queryParam, Escaped(nodeKey), nodeType);
      var v := c.varName;
      var m := [c.mutation] + PropertyMutations(v, properties, order);
      && |m| == 1 + 2 * |UpsertedNames(properties)|
      && m[0].cond == LenCondition(v, "0")
      && forall j :: 0 <= j < |order| ==>
           var value := EscapeProp(properties[order[j]]);
           && m[1 + 2 * j].cond == LenCondition(v, "1")
           && m[1 + 2 * j].setNquads == "uid(" + v + ") <" + order[j] + "> " + value + " ."
           && m[2 + 2 * j].cond == LenCondition(v, "0")
           && m[2 + 2 * j].setNquads == "_:" + v + " <" + order[j] + "> " + value + " ."
  {
    var c := NodeCreationQuads(queryParam, Escaped(nodeKey), nodeType);
    PropertyMutationsShape(c.varName, properties, order);
    EnumerationSize(order, UpsertedNames(properties));
    forall j | 0 <= j < |order|
      ensures var q := PropertyUpsertQuads(c.varName, order[j], EscapeProp(properties[order[j]]));
        && q.ifExists == Mutation("uid(" + c.varName + ") <" + order[j] + "> " + EscapeProp(properties[order[j]]) + " .", LenCondition(c.varName, "1"))
        && q.ifAbsent == Mutation("_:" + c.varName + " <" + order[j] + "> " + EscapeProp(properties[order[j]]) + " .", LenCondition(c.varName, "0"))
    {
    }
  }

  /** The caller's `key_query_map`, which `build_upserts` updates in place. */
  class KeyQueryMap {
    var entries: map<string, string>

    constructor ()
      ensures entries == map[]
    {
      entries := map[];
    }
  }

  /** Loop state of `build_upserts`: `order` lists, once each, the upserted
      properties already taken out of `remaining`. */
  predicate Visited(properties: map<string, Property>, remaining: set<string>, order: seq<string>) {
    && remaining <= properties.Keys
    && Distinct(order)
    && (forall i :: 0 <= i < |order| ==> order[i] in properties && order[i] !in remaining && Upserted(order[i]))
    && (forall n :: n in properties && n !in remaining && Upserted(n) ==> n in order)
  }

  lemma VisitStep(properties: map<string, Property>, remaining: set<string>, order: seq<string>, name: string)
    requires Visited(properties, remaining, order) && name in remaining
    ensures Upserted(name) ==> Visited(properties, remaining - {name}, order + [name])
    ensures !Upserted(name) ==> Visited(properties, remaining - {name}, order)
  {
  }

  /** The loop of `build_upserts` over the node's properties: skip `node_key`
      and `dgraph.type`, append one query line and two mutations for each
      other property. The visiting order is a HashMap's, so unspecified; the
      ghost `order` names the order this run used. */
  method UpsertProperties(varName: string, properties: map<string, Property>,
                          queries0: string, mutations0: seq<Mutation>)
    returns (queries: string, mutations: seq<Mutation>, ghost order: seq<string>)
    ensures Enumerates(order, UpsertedNames(properties))
    ensures forall i :: 0 <= i < |order| ==> order[i] in properties
    ensures mutations == mutations0 + PropertyMutations(varName, properties, order)
    ensures queries == queries0 + PropertyQueries(varName, properties, order)
  {
    queries, mutations, order := queries0, mutations0, [];
    var remaining := properties.Keys;
    while remaining != {}
      invariant Visited(properties, remaining, order)
      invariant mutations == mutations0 + PropertyMutations(varName, properties, order)
      invariant queries == queries0 + PropertyQueries(varName, properties, order)
      decreases remaining
    {
      var name :| name in remaining;
      VisitStep(properties, remaining, order, name);
      remaining := remaining - {name};
      if name == "node_key" {
        continue;
      }
      if name == "dgraph.type" {
        continue;
      }
      var value := EscapeProp(properties[name]);
      var q := PropertyUpsertQuads(varName, name, value);
      assert q == PropertyQuadsFor(varName, properties, name);
      PropertyStep(varName, properties, order, name, queries0, mutations0);
      queries := queries + (q.query + "\n");
      mutations := mutations + [q.ifExists, q.ifAbsent];
      order := order + [name];
    }
    assert Enumerates(order, UpsertedNames(properties));
  }

  /** `build_upserts`: record the raw node key's query variable in
      `key_query_map`, then one creation mutation and the property upserts. */
  method BuildUpserts(queryParam: u128, nodeKey: string, nodeType: string,
                      properties: map<string, Property>, keyQueryMap: KeyQueryMap)
    returns (queries: string, mutations: seq<Mutation>, ghost order: seq<string>)
    modifies keyQueryMap
    ensures keyQueryMap.entries == old(keyQueryMap.entries)[nodeKey := CreationVarName(queryParam)]
    ensures Enumerates(order, UpsertedNames(properties))
    ensures forall i :: 0 <= i < |order| ==> order[i] in properties
    ensures var c := NodeCreationQuads(queryParam, Escaped(nodeKey), nodeType);
      && mutations == [c.mutation] + PropertyMutations(c.varName, properties, order)
      && queries == c.query + "\n" + PropertyQueries(c.varName, properties, order)
  {
    var escapedKey := EscapeQuote(nodeKey);
    var creation := NodeCreationQuads(queryParam, escapedKey, nodeType);
    keyQueryMap.entries := keyQueryMap.entries[nodeKey := creation.varName];
    queries, mutations, order :=
      UpsertProperties(creation.varName, properties, creation.query + "\n", [creation.mutation]);
  }
}
