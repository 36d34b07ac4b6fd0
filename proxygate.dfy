/**
 * The access gate of the proxy server (server.js): the chatflow table built
 * from the environment, its case-insensitive lookup, the UUID layout check,
 * the origin/host domain rule and the `validateApiKey` middleware.
 */
module ProxyGate {
  import opened Wrappers
  import opened Strings

  /** A configured chatflow: its id upstream and the origins allowed to embed it. */
  datatype Flow = Flow(chatflowId: string, domains: seq<string>)

  /** The `Map` of chatflows: (identifier, flow) pairs in insertion order. */
  type Table = seq<(string, Flow)>

  /** Why `parseChatflows` stops the process. */
  datatype ParseError = NoConfigurations | NoValidConfigurations

  const ReservedNames: set<string> := {"CHAT_API_HOST", "API_KEY", "PORT", "HOST", "BASE_URL", "NODE_ENV"}

  /** The origin every flow accepts outside production. */
  const LocalDevOrigin := "http://localhost:5678"

  // ---- parseChatflows ----

  /** An environment variable that may name a chatflow. */
  predicate IsCandidate(key: string)
  {
    !StartsWith(key, "_") && !StartsWith(key, "npm_") && !StartsWith(key, "yarn_")
    && !StartsWith(key, "VSCODE_") && key !in ReservedNames
  }

  /** The environment entries, in order, whose names pass the filter. */
  function Candidates(env: seq<(string, string)>): (r: seq<(string, string)>)
    ensures forall p :: p in r <==> p in env && IsCandidate(p.0)
    decreases |env|
  {
    if |env| == 0 then []
    else (if IsCandidate(env[0].0) then [env[0]] else []) + Candidates(env[1..])
  }

  /** `process.env[name]`. */
  function EnvGet(env: seq<(string, string)>, name: string): (r: Option<string>)
    ensures r.Some? ==> (name, r.value) in env
    ensures r.None? <==> forall i :: 0 <= i < |env| ==> env[i].0 != name
    decreases |env|
  {
    if |env| == 0 then None
    else if env[0].0 == name then Some(env[0].1)
    else EnvGet(env[1..], name)
  }

  /** The domains every flow starts with: none in production, the local dev origin otherwise. */
  function DefaultDomains(production: bool): seq<string>
  {
    if production then [] else [LocalDevOrigin]
  }

  /** `value.split(',').map(s => s.trim())`. */
  function Parts(value: string): (r: seq<string>)
    ensures |r| == |Split(value, ',')| >= 1
    ensures forall i :: 0 <= i < |r| ==> r[i] == Trim(Split(value, ',')[i])
  {
    var ps := Split(value, ',');
    seq(|ps|, i requires 0 <= i < |ps| => Trim(ps[i]))
  }

  /** The flow one variable's value describes: the first part is the id, and the
    * domains are the defaults followed by the other parts, without repeats. */
  function FlowOf(value: string, defaults: seq<string>): Flow
  {
    var parts := Parts(value);
    Flow(parts[0], Dedup(defaults + parts[1..]))
  }

  /** A flow that is kept: a non-empty id and no wildcard domain. */
  predicate Admissible(f: Flow)
  {
    f.chatflowId != "" && "*" !in f.domains
  }

  /** `Map.prototype.get`: the flow stored under `k`. */
  function Find(t: Table, k: string): (r: Option<Flow>)
    ensures r.None? <==> forall i :: 0 <= i < |t| ==> t[i].0 != k
    ensures r.Some? ==> (k, r.value) in t
    decreases |t|
  {
    if |t| == 0 then None
    else if t[0].0 == k then Some(t[0].1)
    else Find(t[1..], k)
  }

  /** `Map.prototype.set`: an existing key keeps its place and takes the new
    * flow; a new key goes at the end. */
  function Put(t: Table, k: string, f: Flow): (r: Table)
    decreases |t|
  {
    if |t| == 0 then [(k, f)]
    else if t[0].0 == k then [(k, f)] + t[1..]
    else [t[0]] + Put(t[1..], k, f)
  }

  /** No identifier occurs twice. */
  predicate DistinctKeys(t: Table)
  {
    forall i, j :: 0 <= i < j < |t| ==> t[i].0 != t[j].0
  }

  /** After `set`, `get` of that key answers the new flow and every other key
    * keeps its flow. */
  lemma {:induction false} PutFind(t: Table, k: string, f: Flow)
    ensures Find(Put(t, k, f), k) == Some(f)
    ensures forall k' :: k' != k ==> Find(Put(t, k, f), k') == Find(t, k')
    decreases |t|
  {
    if |t| > 0 && t[0].0 != k {
      PutFind(t[1..], k, f);
      assert Put(t, k, f)[1..] == Put(t[1..], k, f);
    }
  }

  /** `set` on a table with distinct identifiers replaces the entry of that key
    * or adds one, and keeps identifiers distinct. */
  lemma {:induction false} PutEntries(t: Table, k: string, f: Flow)
    requires DistinctKeys(t)
    ensures forall p :: p in Put(t, k, f) <==> p == (k, f) || (p in t && p.0 != k)
    ensures DistinctKeys(Put(t, k, f))
    decreases |t|
  {
    var r := Put(t, k, f);
    if |t| > 0 && t[0].0 != k {
      assert DistinctKeys(t[1..]) by {
        forall i, j | 0 <= i < j < |t| - 1
          ensures t[1..][i].0 != t[1..][j].0
        {
          assert t[1..][i] == t[i + 1] && t[1..][j] == t[j + 1];
        }
      }
      PutEntries(t[1..], k, f);
      assert r == [t[0]] + Put(t[1..], k, f);
      assert forall p :: p in t[1..] ==> p.0 != t[0].0 by {
        forall p | p in t[1..]
          ensures p.0 != t[0].0
        {
          var m :| 0 <= m < |t[1..]| && t[1..][m] == p;
          assert t[m + 1] == p;
        }
      }
      forall i, j | 0 <= i < j < |r|
        ensures r[i].0 != r[j].0
      {
        assert r[j] == Put(t[1..], k, f)[j - 1];
        if i > 0 {
          assert r[i] == Put(t[1..], k, f)[i - 1];
        }
      }
      assert t == [t[0]] + t[1..];
    } else if |t| > 0 {
      forall i, j | 0 <= i < j < |r|
        ensures r[i].0 != r[j].0
      {
        assert r[j] == t[j];
        if i > 0 {
          assert r[i] == t[i];
        }
      }
      forall p
        ensures p in r <==> p == (k, f) || (p in t && p.0 != k)
      {
        if p in t && p.0 != k {
          var m :| 0 <= m < |t| && t[m] == p;
          assert m != 0 && r[m] == p;
        }
        if p in r && p != (k, f) {
          var m :| 0 <= m < |r| && r[m] == p;
          assert m != 0 && t[m] == p;
        }
      }
    }
  }

  /** The table after the loop has seen `vars`. */
  function Build(vars: seq<(string, string)>, defaults: seq<string>): Table
    decreases |vars|
  {
    if |vars| == 0 then []
    else
      var t := Build(vars[..|vars| - 1], defaults);
      var f := FlowOf(vars[|vars| - 1].1, defaults);
      if Admissible(f) then Put(t, vars[|vars| - 1].0, f) else t
  }

  /** What `parseChatflows` returns, or why it exits. */
  function Parse(env: seq<(string, string)>): Result<Table, ParseError>
  {
    var vars := Candidates(env);
    if |vars| == 0 then Err(NoConfigurations)
    else
      var t := Build(vars, DefaultDomains(EnvGet(env, "NODE_ENV") == Some("production")));
      if |t| == 0 then Err(NoValidConfigurations) else Ok(t)
  }

  /** `parseChatflows`: filter the environment, then fill the table in a loop
    * that skips flows without an id or with a wildcard domain. */
  method ParseChatflows(env: seq<(string, string)>) returns (r: Result<Table, ParseError>)
    ensures r == Parse(env)
  {
    var vars := Candidates(env);
    if |vars| == 0 {
      return Err(NoConfigurations);
    }
    var defaults := DefaultDomains(EnvGet(env, "NODE_ENV") == Some("production"));
    var table: Table := [];
    for i := 0 to |vars|
      invariant table == Build(vars[..i], defaults)
    {
      assert vars[..i + 1][..i] == vars[..i];
      var identifier := vars[i].0;
      var flow := FlowOf(vars[i].1, defaults);
      if flow.chatflowId == "" {
        continue;
      }
      if "*" in flow.domains {
        continue;
      }
      table := Put(table, identifier, flow);
    }
    assert vars[..|vars|] == vars;
    if |table| == 0 {
      return Err(NoValidConfigurations);
    }
    return Ok(table);
  }

  /** A built table never lists an identifier twice. */
  lemma {:induction false} BuildDistinct(vars: seq<(string, string)>, defaults: seq<string>)
    ensures DistinctKeys(Build(vars, defaults))
    decreases |vars|
  {
    if |vars| > 0 {
      BuildDistinct(vars[..|vars| - 1], defaults);
      var f := FlowOf(vars[|vars| - 1].1, defaults);
      if Admissible(f) {
        PutEntries(Build(vars[..|vars| - 1], defaults), vars[|vars| - 1].0, f);
      }
    }
  }

  /** The flow as read from some value. */
  ghost predicate ReadFrom(vars: seq<(string, string)>, defaults: seq<string>, p: (string, Flow))
  {
    exists v :: (p.0, v) in vars && p.1 == FlowOf(v, defaults)
  }

  /** Every entry of a built table is an admissible flow read from its own variable. */
  lemma {:induction false} BuildEntries(vars: seq<(string, string)>, defaults: seq<string>)
    ensures forall p :: p in Build(vars, defaults) ==> Admissible(p.1) && ReadFrom(vars, defaults, p)
    decreases |vars|
  {
    if |vars| > 0 {
      var init := vars[..|vars| - 1];
      var last := vars[|vars| - 1];
      BuildEntries(init, defaults);
      BuildDistinct(init, defaults);
      var t := Build(init, defaults);
      var f := FlowOf(last.1, defaults);
      forall p | p in Build(vars, defaults)
        ensures Admissible(p.1) && ReadFrom(vars, defaults, p)
      {
        if Admissible(f) {
          PutEntries(t, last.0, f);
        }
        if p in t {
          var v :| (p.0, v) in init && p.1 == FlowOf(v, defaults);
          assert (p.0, v) in vars;
        } else {
          assert p == (last.0, f);
          assert last in vars;
        }
      }
    }
  }

  /** Every admissible variable has an entry. */
  lemma {:induction false} BuildComplete(vars: seq<(string, string)>, defaults: seq<string>)
    ensures forall p :: p in vars && Admissible(FlowOf(p.1, defaults)) ==>
      Find(Build(vars, defaults), p.0).Some?
    decreases |vars|
  {
    if |vars| > 0 {
      var init := vars[..|vars| - 1];
      var last := vars[|vars| - 1];
      BuildComplete(init, defaults);
      assert vars == init + [last];
      var t := Build(init, defaults);
      var f := FlowOf(last.1, defaults);
      forall p | p in vars && Admissible(FlowOf(p.1, defaults))
        ensures Find(Build(vars, defaults), p.0).Some?
      {
        if Admissible(f) {
          PutFind(t, last.0, f);
          if p.0 != last.0 {
            assert p in init;
          }
        } else {
          assert p != last;
          assert p in init;
        }
      }
    }
  }

  /** The domain defaults for the environment's `NODE_ENV`. */
  function EnvDefaults(env: seq<(string, string)>): seq<string>
  {
    DefaultDomains(EnvGet(env, "NODE_ENV") == Some("production"))
  }

  /** Parsing keeps only names that pass the filter, each with an admissible
    * flow read from its own value, and every admissible candidate gets an entry. */
  lemma ParseEntries(env: seq<(string, string)>)
    requires Parse(env).Ok?
    ensures DistinctKeys(Parse(env).value)
    ensures forall p :: p in Parse(env).value ==>
      IsCandidate(p.0) && Admissible(p.1) && ReadFrom(env, EnvDefaults(env), p)
    ensures forall p :: p in env && IsCandidate(p.0) && Admissible(FlowOf(p.1, EnvDefaults(env))) ==>
      Find(Parse(env).value, p.0).Some?
  {
    var vars := Candidates(env);
    var defaults := EnvDefaults(env);
    BuildDistinct(vars, defaults);
    BuildEntries(vars, defaults);
    BuildComplete(vars, defaults);
    var t := Build(vars, defaults);
    assert Parse(env).value == t;
    forall p | p in t
      ensures IsCandidate(p.0) && ReadFrom(env, defaults, p)
    {
      var v :| (p.0, v) in vars && p.1 == FlowOf(v, defaults);
    }
  }

  /** A built table is empty exactly when no variable is admissible. */
  lemma BuildEmpty(vars: seq<(string, string)>, defaults: seq<string>)
    ensures |Build(vars, defaults)| == 0 <==> forall p :: p in vars ==> !Admissible(FlowOf(p.1, defaults))
  {
    BuildEntries(vars, defaults);
    BuildComplete(vars, defaults);
    var t := Build(vars, defaults);
    if |t| > 0 {
      assert t[0] in t;
      var v :| (t[0].0, v) in vars && t[0].1 == FlowOf(v, defaults);
    }
  }

  /** Parsing fails with no candidate at all. */
  lemma ParseNoCandidates(env: seq<(string, string)>)
    ensures Parse(env) == Err(NoConfigurations) <==> forall p :: p in env ==> !IsCandidate(p.0)
  {
    var vars := Candidates(env);
    if |vars| == 0 {
      forall p | p in env
        ensures !IsCandidate(p.0)
      {
        assert p !in vars;
      }
    } else {
      assert vars[0] in vars;
    }
  }

  /** Parsing fails with candidates none of which is admissible. */
  lemma ParseNoneAdmissible(env: seq<(string, string)>)
    ensures Parse(env) == Err(NoValidConfigurations) <==>
      (exists p :: p in env && IsCandidate(p.0)) &&
      forall p :: p in env && IsCandidate(p.0) ==> !Admissible(FlowOf(p.1, EnvDefaults(env)))
  {
    var vars := Candidates(env);
    BuildEmpty(vars, EnvDefaults(env));
    if |vars| > 0 {
      assert vars[0] in vars;
    }
  }

  /** The defaults come first among a flow's domains, each domain once, and a
    * domain is listed exactly when it is a default or a configured part. */
  lemma FlowDomains(value: string, production: bool)
    ensures var d := FlowOf(value, DefaultDomains(production)).domains;
      DefaultDomains(production) <= d &&
      (forall i, j :: 0 <= i < j < |d| ==> d[i] != d[j]) &&
      (forall x :: x in d <==> x in DefaultDomains(production) || x in Parts(value)[1..])
  {
    var defaults := DefaultDomains(production);
    DedupPrefix(defaults, Parts(value)[1..]);
    if !production {
      assert defaults[..0] == [];
      assert Dedup(defaults) == defaults;
    }
  }

  /** A wildcard among the configured parts always drops the flow. */
  lemma WildcardRejected(value: string, production: bool)
    requires "*" in Parts(value)[1..]
    ensures !Admissible(FlowOf(value, DefaultDomains(production)))
  {
    FlowDomains(value, production);
  }

  // ---- getChatflowDetails ----

  /** The first flow whose identifier equals `lk` once lower-cased. */
  function FindFolded(t: Table, lk: string): (r: Option<Flow>)
    decreases |t|
  {
    if |t| == 0 then None
    else if Lower(t[0].0) == lk then Some(t[0].1)
    else FindFolded(t[1..], lk)
  }

  /** Entry `i` is the first whose identifier folds to `lk`. */
  predicate FirstFolded(t: Table, lk: string, i: int)
  {
    0 <= i < |t| && Lower(t[i].0) == lk && forall j :: 0 <= j < i ==> Lower(t[j].0) != lk
  }

  /** `getChatflowDetails`: the exact match, else the first case-insensitive
    * one; `None` is the thrown "Chatflow not found". */
  function Details(t: Table, identifier: string): Option<Flow>
  {
    var exact := Find(t, identifier);
    if exact.Some? then exact else FindFolded(t, Lower(identifier))
  }

  /** The first case-insensitive match is the one found. */
  lemma {:induction false} FindFoldedFirst(t: Table, lk: string)
    ensures FindFolded(t, lk).None? <==> forall i :: 0 <= i < |t| ==> Lower(t[i].0) != lk
    ensures forall i :: FirstFolded(t, lk, i) ==> FindFolded(t, lk) == Some(t[i].1)
    decreases |t|
  {
    if |t| > 0 {
      FindFoldedFirst(t[1..], lk);
      forall i | FirstFolded(t, lk, i) && i > 0
        ensures FindFolded(t, lk) == Some(t[i].1)
      {
        assert FirstFolded(t[1..], lk, i - 1) by {
          forall j | 0 <= j < i - 1
            ensures Lower(t[1..][j].0) != lk
          {
            assert t[1..][j] == t[j + 1];
          }
        }
      }
      if FindFolded(t, lk).None? {
        forall i | 0 <= i < |t|
          ensures Lower(t[i].0) != lk
        {
          if i > 0 {
            assert t[1..][i - 1] == t[i];
          }
        }
      }
    }
  }

  /** An exact key wins; otherwise the first key equal ignoring case answers;
    * the lookup fails exactly when no key equals the identifier ignoring case. */
  lemma DetailsRules(t: Table, identifier: string)
    ensures forall i :: 0 <= i < |t| && t[i].0 == identifier ==> Details(t, identifier).Some?
    ensures Find(t, identifier).Some? ==> Details(t, identifier) == Find(t, identifier)
    ensures Find(t, identifier).None? ==>
      forall i :: FirstFolded(t, Lower(identifier), i) ==> Details(t, identifier) == Some(t[i].1)
    ensures Details(t, identifier).None? <==>
      forall i :: 0 <= i < |t| ==> Lower(t[i].0) != Lower(identifier)
  {
    FindFoldedFirst(t, Lower(identifier));
  }

  /** `getChatflowDetails` as written: a map lookup, then a scan that stops at
    * the first key equal ignoring case. */
  method GetChatflowDetails(t: Table, identifier: string) returns (r: Option<Flow>)
    ensures r == Details(t, identifier)
  {
    r := Find(t, identifier);
    if r.None? {
      var lower := Lower(identifier);
      var i := 0;
      while i < |t|
        invariant 0 <= i <= |t|
        invariant FindFolded(t, lower) == FindFolded(t[i..], lower)
      {
        if Lower(t[i].0) == lower {
          r := Some(t[i].1);
          break;
        }
        assert t[i..][1..] == t[i + 1..];
        i := i + 1;
      }
    }
  }

  // ---- isValidUUID ----

  /** `[0-9a-f]` under the case-insensitive flag. */
  predicate IsHexDigit(c: char)
  {
    '0' <= c <= '9' || 'a' <= c <= 'f' || 'A' <= c <= 'F'
  }

  predicate HexRun(s: string)
  {
    forall i :: 0 <= i < |s| ==> IsHexDigit(s[i])
  }

  /** The whole of `s` is hex groups of the given lengths joined by '-'. */
  predicate Groups(s: string, lens: seq<nat>)
    decreases |lens|
  {
    if |lens| == 0 then s == ""
    else if |lens| == 1 then |s| == lens[0] && HexRun(s)
    else |s| > lens[0] && HexRun(s[..lens[0]]) && s[lens[0]] == '-' && Groups(s[lens[0] + 1..], lens[1..])
  }

  /** `isValidUUID`: the anchored 8-4-4-4-12 pattern. */
  predicate IsValidUUID(s: string)
  {
    Groups(s, [8, 4, 4, 4, 12])
  }

  predicate IsDashPosition(i: int)
  {
    i == 8 || i == 13 || i == 18 || i == 23
  }

  /** Column `i` of a UUID: a dash at the four separator columns, a hex digit elsewhere. */
  predicate UUIDColumn(s: string, i: int)
    requires 0 <= i < |s|
  {
    if IsDashPosition(i) then s[i] == '-' else IsHexDigit(s[i])
  }

  /** A group followed by a dash, then the rest, read column by column. */
  lemma GroupStep(s: string, n: nat, lens: seq<nat>)
    requires |lens| >= 1 && |s| > n
    ensures Groups(s, [n] + lens) <==>
      HexRun(s[..n]) && s[n] == '-' && Groups(s[n + 1..], lens)
  {
    assert ([n] + lens)[1..] == lens;
  }

  /** The five groups of a 36-character string, cut at the dash columns. */
  predicate FiveGroups(s: string)
    requires |s| == 36
  {
    HexRun(s[..8]) && s[8] == '-' && HexRun(s[9..13]) && s[13] == '-' && HexRun(s[14..18])
    && s[18] == '-' && HexRun(s[19..23]) && s[23] == '-' && HexRun(s[24..])
  }

  /** The pattern, group by group. */
  lemma UUIDGroups(s: string)
    ensures IsValidUUID(s) <==> |s| == 36 && FiveGroups(s)
  {
    if |s| == 36 {
      GroupStep(s, 8, [4, 4, 4, 12]);
      GroupStep(s[9..], 4, [4, 4, 12]);
      GroupStep(s[14..], 4, [4, 12]);
      GroupStep(s[19..], 4, [12]);
      assert s[9..][..4] == s[9..13] && s[9..][5..] == s[14..];
      assert s[14..][..4] == s[14..18] && s[14..][5..] == s[19..];
      assert s[19..][..4] == s[19..23] && s[19..][5..] == s[24..];
    } else {
      GroupSize(s, [8, 4, 4, 4, 12]);
    }
  }

  /** The groups, column by column. */
  lemma FiveGroupsColumns(s: string)
    requires |s| == 36
    ensures FiveGroups(s) <==> forall i :: 0 <= i < 36 ==> UUIDColumn(s, i)
  {
    if forall i :: 0 <= i < 36 ==> UUIDColumn(s, i) {
      assert HexRun(s[..8]) by { forall k | 0 <= k < 8 ensures IsHexDigit(s[..8][k]) { assert UUIDColumn(s, k); } }
      assert HexRun(s[9..13]) by { forall k | 0 <= k < 4 ensures IsHexDigit(s[9..13][k]) { assert UUIDColumn(s, 9 + k); } }
      assert HexRun(s[14..18]) by { forall k | 0 <= k < 4 ensures IsHexDigit(s[14..18][k]) { assert UUIDColumn(s, 14 + k); } }
      assert HexRun(s[19..23]) by { forall k | 0 <= k < 4 ensures IsHexDigit(s[19..23][k]) { assert UUIDColumn(s, 19 + k); } }
      assert HexRun(s[24..]) by { forall k | 0 <= k < 12 ensures IsHexDigit(s[24..][k]) { assert UUIDColumn(s, 24 + k); } }
      assert UUIDColumn(s, 8) && UUIDColumn(s, 13) && UUIDColumn(s, 18) && UUIDColumn(s, 23);
    }
    if FiveGroups(s) {
      forall i | 0 <= i < 36
        ensures UUIDColumn(s, i)
      {
        if i < 8 { assert s[..8][i] == s[i]; }
        else if 8 < i < 13 { assert s[9..13][i - 9] == s[i]; }
        else if 13 < i < 18 { assert s[14..18][i - 14] == s[i]; }
        else if 18 < i < 23 { assert s[19..23][i - 19] == s[i]; }
        else if 23 < i { assert s[24..][i - 24] == s[i]; }
      }
    }
  }

  /** `isValidUUID` accepts exactly the 36-character strings with dashes at
    * columns 8, 13, 18 and 23 and hex digits everywhere else. */
  lemma UUIDLayout(s: string)
    ensures IsValidUUID(s) <==> |s| == 36 && forall i :: 0 <= i < 36 ==> UUIDColumn(s, i)
  {
    UUIDGroups(s);
    if |s| == 36 {
      FiveGroupsColumns(s);
    }
  }

  function Sum(lens: seq<nat>): nat
  {
    if |lens| == 0 then 0 else lens[0] + Sum(lens[1..])
  }

  /** A match of `Groups` has the groups' lengths plus one dash between each pair. */
  lemma {:induction false} GroupSize(s: string, lens: seq<nat>)
    requires |lens| >= 1
    ensures Groups(s, lens) ==> |s| == Sum(lens) + |lens| - 1
    decreases |lens|
  {
    if |lens| > 1 && Groups(s, lens) {
      GroupSize(s[lens[0] + 1..], lens[1..]);
    }
  }

  // ---- isValidDomain ----

  /** `.replace(/^https?:\/\//, '')`. */
  function StripScheme(s: string): string
  {
    if StartsWith(s, "https://") then s[8..]
    else if StartsWith(s, "http://") then s[7..]
    else s
  }

  /** `.replace(/\/$/, '')`: one trailing slash. */
  function StripSlash(s: string): string
  {
    if |s| > 0 && s[|s| - 1] == '/' then s[..|s| - 1] else s
  }

  /** Scheme, one trailing slash and port removed: `.split(':')[0]` of the rest. */
  function Normalize(s: string): (r: string)
    ensures ':' !in r
  {
    Split(StripSlash(StripScheme(s)), ':')[0]
  }

  /** A JavaScript truthy string. */
  predicate Truthy(s: Option<string>)
  {
    s.Some? && s.value != ""
  }

  /** `isValidDomain(origin, domains, host)`. */
  predicate IsValidDomain(origin: Option<string>, domains: seq<string>, host: Option<string>)
  {
    if !Truthy(origin) then true
    else
      var no := Normalize(origin.value);
      var nh := if Truthy(host) then Normalize(host.value) else "";
      if nh != "" && no == nh then true
      else if nh != "" && EndsWith(no, "." + nh) then true
      else origin.value in domains
  }

  /** A bare host name: no scheme, port separator or slash. */
  predicate IsHostName(h: string)
  {
    h != "" && ':' !in h && '/' !in h
  }

  /** `:port`, or nothing for an empty port. */
  function PortPart(port: string): string
  {
    if port == "" then "" else ":" + port
  }

  /** Text without a slash has no scheme to strip. */
  lemma NoScheme(x: string)
    requires '/' !in x
    ensures StripScheme(x) == x
  {
    assert !StartsWith(x, "https://") by {
      if |x| >= 8 {
        assert x[6] in x;
      }
    }
    assert !StartsWith(x, "http://") by {
      if |x| >= 7 {
        assert x[5] in x;
      }
    }
  }

  /** A scheme at the front is stripped, and nothing more. */
  lemma SchemeStripped(scheme: string, rest: string)
    requires scheme == "http://" || scheme == "https://"
    ensures StripScheme(scheme + rest) == rest
  {
    var s := scheme + rest;
    assert s[..|scheme|] == scheme;
    if scheme == "http://" && |s| >= 8 {
      assert s[..8][4] == s[4] == ':';
    }
    assert s[|scheme|..] == rest;
  }

  /** `host[:port]` has no slash, does not end in one, and splits on ':' to the host. */
  lemma HostPort(h: string, port: string)
    requires IsHostName(h) && '/' !in port
    ensures var core := h + PortPart(port);
      '/' !in core && core[|core| - 1] != '/' && Split(core, ':')[0] == h
  {
    var core := h + PortPart(port);
    forall k | 0 <= k < |core|
      ensures core[k] != '/'
    {
      if k < |h| {
        assert core[k] == h[k] && h[k] in h;
      } else if k > |h| {
        assert core[k] == port[k - |h| - 1] && port[k - |h| - 1] in port;
      }
    }
    if port == "" {
      assert core == h;
      SplitWithout(h, ':');
    } else {
      assert core == h + [':'] + port;
      SplitAfter(h, ':', port);
    }
  }

  /** Normalising `[scheme://]host[:port]` gives the host, and so does
    * normalising it with one trailing slash when a scheme is present. */
  lemma NormalizeHost(scheme: string, h: string, port: string, slash: bool)
    requires scheme == "" || scheme == "http://" || scheme == "https://"
    requires IsHostName(h) && '/' !in port
    requires slash ==> scheme != ""
    ensures Normalize(scheme + (h + PortPart(port) + (if slash then "/" else ""))) == h
  {
    var core := h + PortPart(port);
    var rest := core + (if slash then "/" else "");
    HostPort(h, port);
    if scheme == "" {
      assert scheme + rest == core;
      NoScheme(core);
    } else {
      SchemeStripped(scheme, rest);
    }
    if slash {
      assert rest[..|rest| - 1] == core;
    }
    assert StripSlash(rest) == core;
  }

  /** An absent or empty origin is allowed whatever the domains. */
  lemma NoOriginAllowed(domains: seq<string>, host: Option<string>)
    ensures IsValidDomain(None, domains, host) && IsValidDomain(Some(""), domains, host)
  {
  }

  /** An origin naming the server's own host is allowed on any scheme and port,
    * across ports on either side, whatever the domains. */
  lemma SameHostAllowed(https: bool, h: string, port: string, hostPort: string, domains: seq<string>)
    requires IsHostName(h) && '/' !in port && '/' !in hostPort
    ensures IsValidDomain(Some((if https then "https://" else "http://") + (h + PortPart(port))),
      domains, Some(h + PortPart(hostPort)))
  {
    var scheme := if https then "https://" else "http://";
    NormalizeHost(scheme, h, port, false);
    assert h + PortPart(port) + "" == h + PortPart(port);
    NormalizeHost("", h, hostPort, false);
    assert "" + (h + PortPart(hostPort) + "") == h + PortPart(hostPort);
  }

  /** A dotted name of two host names is a host name. */
  lemma DottedHost(sub: string, h: string)
    requires IsHostName(sub) && IsHostName(h)
    ensures IsHostName(sub + "." + h) && EndsWith(sub + "." + h, "." + h)
  {
    var name := sub + "." + h;
    forall k | 0 <= k < |name|
      ensures name[k] != ':' && name[k] != '/'
    {
      if k < |sub| {
        assert name[k] == sub[k] && sub[k] in sub;
      } else if k > |sub| {
        assert name[k] == h[k - |sub| - 1] && h[k - |sub| - 1] in h;
      }
    }
    assert name[|name| - |"." + h|..] == "." + h;
  }

  /** A subdomain of the server's host is allowed whatever the domains. */
  lemma SubdomainAllowed(sub: string, h: string, domains: seq<string>)
    requires IsHostName(sub) && IsHostName(h)
    ensures IsValidDomain(Some("https://" + (sub + "." + h)), domains, Some(h))
  {
    var name := sub + "." + h;
    DottedHost(sub, h);
    NormalizeHost("https://", name, "", false);
    assert name + PortPart("") + "" == name;
    NormalizeHost("", h, "", false);
    assert "" + (h + PortPart("") + "") == h;
  }

  /** Without a host header only the listed origins, compared verbatim, pass. */
  lemma NoHostListOnly(origin: string, domains: seq<string>)
    ensures IsValidDomain(Some(origin), domains, None) <==> origin == "" || origin in domains
  {
  }

  // ---- validateApiKey ----

  /** An incoming request: Express's `path`, `method`, the `chatflowId` query
    * parameter and the headers under their lower-case names. */
  datatype Request = Request(path: string, verb: string, query: Option<string>, headers: map<string, string>)

  /** What the middleware does: hand the request on, or answer with a status. */
  datatype Outcome = Forward | Respond(status: int)

  /** The outcome together with what `req.chatflow` ends up holding. */
  datatype Verdict = Verdict(outcome: Outcome, chatflow: Option<Flow>)

  function Header(req: Request, name: string): Option<string>
  {
    if name in req.headers then Some(req.headers[name]) else None
  }

  /** Static files, the config endpoint, the proxied prefixes, HTML pages and preflights. */
  predicate Exempt(req: Request)
  {
    req.path in {"/web.js", "/dist/web.js", "/", "/favicon.ico", "/api/config"}
    || StartsWith(req.path, "/api/v1/prediction/") || StartsWith(req.path, "/api/v1/autofaq/")
    || StartsWith(req.path, "/dist/") || StartsWith(req.path, "/public/")
    || EndsWith(req.path, ".html") || req.verb == "OPTIONS"
  }

  /** `.filter(Boolean)` on strings. */
  function NonEmpty(parts: seq<string>): (r: seq<string>)
    ensures forall i :: 0 <= i < |r| ==> r[i] != ""
    ensures forall x :: x in r <==> x in parts && x != ""
    decreases |parts|
  {
    if |parts| == 0 then []
    else (if parts[0] == "" then [] else [parts[0]]) + NonEmpty(parts[1..])
  }

  function PathParts(path: string): seq<string>
  {
    NonEmpty(Split(path, '/'))
  }

  /** `pathParts[3]` when there are at least three segments (undefined when
    * there are exactly three), else the query's first '/'-segment. */
  function Identifier(req: Request): Option<string>
  {
    var parts := PathParts(req.path);
    if |parts| >= 3 then (if |parts| > 3 then Some(parts[3]) else None)
    else if req.query.Some? then Some(Split(req.query.value, '/')[0])
    else None
  }

  const FetchSites: set<string> := {"same-origin", "same-site", "cross-site"}

  /** The browser-fetch headers the gate insists on. */
  predicate BrowserHeaders(req: Request)
  {
    Truthy(Header(req, "user-agent")) && Truthy(Header(req, "accept-language")) && Truthy(Header(req, "accept"))
    && Header(req, "sec-fetch-mode") == Some("cors")
    && Truthy(Header(req, "sec-fetch-site")) && Header(req, "sec-fetch-site").value in FetchSites
  }

  /** The decision for a request after the exemptions: 400 without an
    * identifier, 404 for an unknown flow outside development (where a stand-in
    * flow for the dev base URL is used instead), then the header and domain checks. */
  function Checked(t: Table, isDev: bool, devBaseUrl: string, req: Request): Verdict
  {
    var id := Identifier(req);
    if !Truthy(id) then Verdict(Respond(400), None)
    else
      var found := Details(t, id.value);
      if found.None? && !isDev then Verdict(Respond(404), None)
      else
        var flow := if found.Some? then found.value else Flow(id.value, [devBaseUrl]);
        if BrowserHeaders(req) && IsValidDomain(Header(req, "origin"), flow.domains, Header(req, "host"))
        then Verdict(Forward, Some(flow))
        else Verdict(Respond(401), Some(flow))
  }

  /** `validateApiKey`, as a decision. */
  function Gate(t: Table, isDev: bool, devBaseUrl: string, req: Request): Verdict
  {
    if Exempt(req) || Contains(req.path, "/get-upload-file") then Verdict(Forward, None)
    else Checked(t, isDev, devBaseUrl, req)
  }

  /** `DEV_BASE_URL` from the `HOST` and `PORT` variables. */
  function DevBaseUrl(host: Option<string>, port: Option<string>): string
  {
    var h := if Truthy(host) then host.value else "0.0.0.0";
    var p := if Truthy(port) then port.value else "3001";
    "http://" + (if h == "0.0.0.0" then "localhost" else h) + ":" + p
  }

  /** One request/response pair as the middleware sees it. */
  class Exchange {
    const request: Request
    /** `req.chatflow`. */
    var chatflow: Option<Flow>
    /** The status sent, if the middleware answered. */
    var status: Option<int>
    /** Whether `next()` was called. */
    var forwarded: bool

    constructor(request: Request)
      ensures this.request == request && chatflow.None? && status.None? && !forwarded
    {
      this.request := request;
      chatflow := None;
      status := None;
      forwarded := false;
    }

    /** `validateApiKey(req, res, next)`. */
    method ValidateApiKey(t: Table, isDev: bool, devBaseUrl: string)
      requires chatflow.None? && status.None? && !forwarded
      modifies this`chatflow, this`status, this`forwarded
      ensures chatflow == Gate(t, isDev, devBaseUrl, request).chatflow
      ensures forwarded <==> Gate(t, isDev, devBaseUrl, request).outcome == Forward
      ensures status.Some? <==> !forwarded
      ensures status.Some? ==> Gate(t, isDev, devBaseUrl, request).outcome == Respond(status.value)
    {
      if Exempt(request) {
        forwarded := true;
        return;
      }
      if Contains(request.path, "/get-upload-file") {
        forwarded := true;
        return;
      }
      var identifier := Identifier(request);
      if !Truthy(identifier) {
        status := Some(400);
        return;
      }
      var flow: Flow;
      var found := GetChatflowDetails(t, identifier.value);
      if found.Some? {
        flow := found.value;
        chatflow := Some(flow);
      } else if isDev {
        flow := Flow(identifier.value, [devBaseUrl]);
        chatflow := Some(flow);
      } else {
        status := Some(404);
        return;
      }
      if BrowserHeaders(request) {
        if IsValidDomain(Header(request, "origin"), flow.domains, Header(request, "host")) {
          forwarded := true;
          return;
        }
      }
      status := Some(401);
    }
  }

  /** Exempt paths pass without a lookup. */
  lemma ExemptPasses(t: Table, isDev: bool, devBaseUrl: string, req: Request)
    requires Exempt(req)
    ensures Gate(t, isDev, devBaseUrl, req) == Verdict(Forward, None)
  {
  }

  /** With exactly three path segments the identifier is always missing. */
  lemma ThreeSegmentsRejected(t: Table, isDev: bool, devBaseUrl: string, req: Request)
    requires !Exempt(req) && !Contains(req.path, "/get-upload-file")
    requires |PathParts(req.path)| == 3
    ensures Gate(t, isDev, devBaseUrl, req) == Verdict(Respond(400), None)
  {
  }

  /** A flow is attached to the request exactly when a lookup succeeded or the
    * development stand-in replaced it. */
  lemma GateFlow(t: Table, isDev: bool, devBaseUrl: string, req: Request)
    requires !Exempt(req) && !Contains(req.path, "/get-upload-file") && Truthy(Identifier(req))
    ensures Details(t, Identifier(req).value).Some? ==>
      Gate(t, isDev, devBaseUrl, req).chatflow == Details(t, Identifier(req).value)
    ensures Details(t, Identifier(req).value).None? && isDev ==>
      Gate(t, isDev, devBaseUrl, req).chatflow == Some(Flow(Identifier(req).value, [devBaseUrl]))
    ensures Gate(t, isDev, devBaseUrl, req).outcome == Respond(404) <==>
      Details(t, Identifier(req).value).None? && !isDev
  {
  }

  /** Past the exemptions, a request passes exactly when it carries the browser
    * headers and its origin is valid for the flow attached to it. */
  lemma GatePasses(t: Table, isDev: bool, devBaseUrl: string, req: Request)
    requires !Exempt(req) && !Contains(req.path, "/get-upload-file")
    ensures var v := Gate(t, isDev, devBaseUrl, req);
      v.outcome == Forward <==>
        v.chatflow.Some? && BrowserHeaders(req) &&
        IsValidDomain(Header(req, "origin"), v.chatflow.value.domains, Header(req, "host"))
    ensures var v := Gate(t, isDev, devBaseUrl, req);
      v.outcome.Respond? && v.chatflow.Some? ==> v.outcome.status == 401
  {
  }

  /** A request with `/chatflows/<name>`-style paths of four or more segments
    * looks the flow up by its fourth segment. */
  lemma FourthSegmentNames(req: Request)
    requires |PathParts(req.path)| > 3
    ensures Identifier(req) == Some(PathParts(req.path)[3]) && Truthy(Identifier(req))
  {
  }
}
