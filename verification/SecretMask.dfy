/** Secrets shown as *** and restored on the way back: a lens over server configurations
    (_mask_* and _merge_* in backend/app/gateway/routers/mcp.py). */
module SecretMask {
  import opened Wrappers

  const MASKED := "***"

  datatype Json =
    | Null
    | Flag(b: bool)
    | Number(n: real)
    | Text(s: string)
    | List(items: seq<Json>)
    | Dict(entries: map<string, Json>)

  /** Which keys name a secret. */
  type Sensitive = string -> bool

  datatype Rejection = MaskedNewKey // *** was sent where there is nothing to restore

  function Mask(sensitive: Sensitive, v: Json): Json
    decreases v
  {
    match v
    case Dict(entries) =>
      Dict(map k | k in entries :: if sensitive(k) then Text(MASKED) else Mask(sensitive, entries[k]))
    case List(items) => List(seq(|items|, i requires 0 <= i < |items| => Mask(sensitive, items[i])))
    case _ => v
  }

  function Entry(entries: map<string, Json>, k: string): Option<Json> {
    if k in entries then Some(entries[k]) else None
  }

  function Merge(sensitive: Sensitive, key: string, incoming: Json, existing: Option<Json>): Result<Json, Rejection>
    decreases incoming
  {
    if incoming == Text(MASKED) && sensitive(key) then
      match existing
      case Some(secret) => Ok(secret)
      case None => Err(MaskedNewKey)
    else if incoming.Dict? && existing.Some? && existing.value.Dict? then
      var kept := existing.value.entries;
      if forall k | k in incoming.entries :: Merge(sensitive, k, incoming.entries[k], Entry(kept, k)).Ok?
      then Ok(Dict(map k | k in incoming.entries :: Merge(sensitive, k, incoming.entries[k], Entry(kept, k)).value))
      else Err(MaskedNewKey)
    else if incoming.List? && existing.Some? && existing.value.List? && |incoming.items| == |existing.value.items| then
      var kept := existing.value.items;
      if forall i | 0 <= i < |incoming.items| :: Merge(sensitive, key, incoming.items[i], Some(kept[i])).Ok?
      then Ok(List(seq(|incoming.items|, i requires 0 <= i < |incoming.items| =>
                         Merge(sensitive, key, incoming.items[i], Some(kept[i])).value)))
      else Err(MaskedNewKey)
    else Ok(incoming)
  }

  // ---- the lens laws on JSON values ----

  /** GetPut: sending back exactly what was shown changes nothing. */
  lemma {:induction false} GetPut(sensitive: Sensitive, key: string, x: Json)
    requires !sensitive(key)
    ensures Merge(sensitive, key, Mask(sensitive, x), Some(x)) == Ok(x)
    decreases x
  {
    match x
    case Dict(entries) =>
      var shown := Mask(sensitive, x).entries;
      forall k | k in entries ensures Merge(sensitive, k, shown[k], Entry(entries, k)) == Ok(entries[k]) {
        if !sensitive(k) { GetPut(sensitive, k, entries[k]); }
      }
      var back := Merge(sensitive, key, Mask(sensitive, x), Some(x));
      assert back.Ok? && back.value.entries == entries;
    case List(items) =>
      var shown := Mask(sensitive, x).items;
      forall i | 0 <= i < |items| ensures Merge(sensitive, key, shown[i], Some(items[i])) == Ok(items[i]) {
        GetPut(sensitive, key, items[i]);
      }
      var back := Merge(sensitive, key, Mask(sensitive, x), Some(x));
      assert back.Ok? && back.value.items == items;
    case _ =>
  }

  /** PutGet: after a merge, what is shown is what was sent, masked. */
  lemma {:induction false} PutGet(sensitive: Sensitive, key: string, sent: Json, existing: Option<Json>)
    requires !sensitive(key) && Merge(sensitive, key, sent, existing).Ok?
    ensures Mask(sensitive, Merge(sensitive, key, sent, existing).value) == Mask(sensitive, sent)
    decreases sent
  {
    var r := Merge(sensitive, key, sent, existing).value;
    if sent.Dict? && existing.Some? && existing.value.Dict? {
      forall k | k in sent.entries && !sensitive(k)
        ensures Mask(sensitive, r.entries[k]) == Mask(sensitive, sent.entries[k])
      {
        PutGet(sensitive, k, sent.entries[k], Entry(existing.value.entries, k));
      }
    } else if sent.List? && existing.Some? && existing.value.List? && |sent.items| == |existing.value.items| {
      forall i | 0 <= i < |sent.items| ensures Mask(sensitive, r.items[i]) == Mask(sensitive, sent.items[i]) {
        PutGet(sensitive, key, sent.items[i], Some(existing.value.items[i]));
      }
    }
  }

  /** Masking what is already masked changes nothing. */
  lemma {:induction false} MaskIdempotent(sensitive: Sensitive, x: Json)
    ensures Mask(sensitive, Mask(sensitive, x)) == Mask(sensitive, x)
    decreases x
  {
    match x
    case Dict(entries) =>
      forall k | k in entries && !sensitive(k)
        ensures Mask(sensitive, Mask(sensitive, entries[k])) == Mask(sensitive, entries[k])
      {
        MaskIdempotent(sensitive, entries[k]);
      }
    case List(items) =>
      forall i | 0 <= i < |items| ensures Mask(sensitive, Mask(sensitive, items[i])) == Mask(sensitive, items[i]) {
        MaskIdempotent(sensitive, items[i]);
      }
    case _ =>
  }

  // ---- secrets by path ----

  datatype Step = Key(k: string) | Index(i: nat)

  function At(v: Json, path: seq<Step>): Option<Json>
    decreases |path|
  {
    if path == [] then Some(v)
    else
      match path[0]
      case Key(k) => if v.Dict? && k in v.entries then At(v.entries[k], path[1..]) else None
      case Index(i) => if v.List? && i < |v.items| then At(v.items[i], path[1..]) else None
  }

  /** The key that decides whether the value at the end of a path is a secret. */
  function Governing(key: string, path: seq<Step>): string
    decreases |path|
  {
    if path == [] then key
    else Governing(if path[0].Key? then path[0].k else key, path[1..])
  }

  /** Both trees can be followed along the path, through dictionaries and lists of equal length. */
  predicate Aligned(v: Json, w: Json, path: seq<Step>)
    decreases |path|
  {
    path == []
    || match path[0]
       case Key(k) =>
         v.Dict? && w.Dict? && k in v.entries && k in w.entries && Aligned(v.entries[k], w.entries[k], path[1..])
       case Index(i) => v.List? && w.List? && i < |v.items| == |w.items| && Aligned(v.items[i], w.items[i], path[1..])
  }

  /** No secret is ever shown: at the end of any path that a sensitive key governs directly there is *** or nothing. */
  lemma {:induction false} NothingLeaks(sensitive: Sensitive, v: Json, path: seq<Step>, k: string)
    requires sensitive(k)
    ensures At(Mask(sensitive, v), path + [Key(k)]) in {None, Some(Text(MASKED))}
    decreases |path|
  {
    var whole := path + [Key(k)];
    var shown := Mask(sensitive, v);
    if path == [] {
      assert whole[1..] == [];
    } else {
      assert whole[0] == path[0] && whole[1..] == path[1..] + [Key(k)];
      match path[0]
      case Key(j) =>
        if v.Dict? && j in v.entries {
          if sensitive(j) {
            assert path[1..] + [Key(k)] != [];
          } else {
            NothingLeaks(sensitive, v.entries[j], path[1..], k);
          }
        }
      case Index(i) =>
        if v.List? && i < |v.items| { NothingLeaks(sensitive, v.items[i], path[1..], k); }
    }
  }

  /** A *** sent at a sensitive path that exists is replaced by the stored value at that very path;
      any other scalar sent there is kept as sent. */
  lemma {:induction false} MergeByPath(sensitive: Sensitive, key: string, sent: Json, stored: Json, path: seq<Step>)
    requires Merge(sensitive, key, sent, Some(stored)).Ok? && Aligned(sent, stored, path)
    requires At(sent, path).Some? && !At(sent, path).value.Dict? && !At(sent, path).value.List?
    ensures At(Merge(sensitive, key, sent, Some(stored)).value, path)
         == if At(sent, path) == Some(Text(MASKED)) && sensitive(Governing(key, path))
            then At(stored, path) else At(sent, path)
    decreases |path|
  {
    if path != [] {
      match path[0]
      case Key(k) => MergeByPath(sensitive, k, sent.entries[k], stored.entries[k], path[1..]);
      case Index(i) => MergeByPath(sensitive, key, sent.items[i], stored.items[i], path[1..]);
    }
  }

  /** Along the path the trees match until a *** is met under a sensitive key the stored tree lacks. */
  ghost predicate Unknown(sensitive: Sensitive, key: string, sent: Json, stored: Option<Json>, path: seq<Step>)
    decreases |path|
  {
    if path == [] then sent == Text(MASKED) && sensitive(key) && stored.None?
    else
      match path[0]
      case Key(k) =>
        && sent.Dict? && stored.Some? && stored.value.Dict? && k in sent.entries
        && Unknown(sensitive, k, sent.entries[k], Entry(stored.value.entries, k), path[1..])
      case Index(i) =>
        && sent.List? && stored.Some? && stored.value.List? && i < |sent.items| == |stored.value.items|
        && Unknown(sensitive, key, sent.items[i], Some(stored.value.items[i]), path[1..])
  }

  lemma {:induction false} UnknownRejects(sensitive: Sensitive, key: string, sent: Json, stored: Option<Json>,
                                          path: seq<Step>)
    requires Unknown(sensitive, key, sent, stored, path)
    ensures Merge(sensitive, key, sent, stored).Err?
    decreases |path|
  {
    if path != [] {
      match path[0]
      case Key(k) => UnknownRejects(sensitive, k, sent.entries[k], Entry(stored.value.entries, k), path[1..]);
      case Index(i) => UnknownRejects(sensitive, key, sent.items[i], Some(stored.value.items[i]), path[1..]);
    }
  }

  lemma {:induction false} RejectionHasPath(sensitive: Sensitive, key: string, sent: Json, stored: Option<Json>)
    returns (path: seq<Step>)
    requires Merge(sensitive, key, sent, stored).Err?
    ensures Unknown(sensitive, key, sent, stored, path)
    decreases sent
  {
    if sent == Text(MASKED) {
      path := [];
    } else if sent.Dict? {
      var k :| k in sent.entries && Merge(sensitive, k, sent.entries[k], Entry(stored.value.entries, k)).Err?;
      var rest := RejectionHasPath(sensitive, k, sent.entries[k], Entry(stored.value.entries, k));
      path := [Key(k)] + rest;
    } else {
      var i :| 0 <= i < |sent.items| && Merge(sensitive, key, sent.items[i], Some(stored.value.items[i])).Err?;
      var rest := RejectionHasPath(sensitive, key, sent.items[i], Some(stored.value.items[i]));
      path := [Index(i)] + rest;
    }
  }

  /** Somewhere in what was sent, *** stands for a secret the stored tree does not have. */
  ghost predicate SendsUnknownSecret(sensitive: Sensitive, key: string, sent: Json, stored: Option<Json>) {
    exists path: seq<Step> :: Unknown(sensitive, key, sent, stored, path)
  }

  /** A merge is refused exactly when some *** sits where the stored tree has a matching parent but no such key. */
  lemma RejectedExactly(sensitive: Sensitive, key: string, sent: Json, stored: Option<Json>)
    ensures Merge(sensitive, key, sent, stored).Err? <==> SendsUnknownSecret(sensitive, key, sent, stored)
  {
    if Merge(sensitive, key, sent, stored).Err? {
      var path := RejectionHasPath(sensitive, key, sent, stored);
      assert Unknown(sensitive, key, sent, stored, path);
    } else {
      forall path: seq<Step> ensures !Unknown(sensitive, key, sent, stored, path) {
        if Unknown(sensitive, key, sent, stored, path) { UnknownRejects(sensitive, key, sent, stored, path); }
      }
    }
  }

  /** Everything else that is sent is kept as it was sent, wherever it is. */
  lemma {:induction false} SentStays(sensitive: Sensitive, key: string, sent: Json, stored: Option<Json>,
                                     path: seq<Step>)
    requires Merge(sensitive, key, sent, stored).Ok?
    requires At(sent, path).Some? && !At(sent, path).value.Dict? && !At(sent, path).value.List?
    requires !(At(sent, path).value == Text(MASKED) && sensitive(Governing(key, path)))
    ensures At(Merge(sensitive, key, sent, stored).value, path) == At(sent, path)
    decreases |path|
  {
    if path != [] {
      match path[0]
      case Key(k) =>
        if stored.Some? && stored.value.Dict? {
          SentStays(sensitive, k, sent.entries[k], Entry(stored.value.entries, k), path[1..]);
        }
      case Index(i) =>
        if stored.Some? && stored.value.List? && |stored.value.items| == |sent.items| {
          SentStays(sensitive, key, sent.items[i], Some(stored.value.items[i]), path[1..]);
        }
    }
  }

  /** What becomes of a *** that an accepted merge finds under a sensitive key: the stored value at its
      path if both trees can be followed there, and otherwise the three stars themselves. */
  lemma {:induction false} StarsStoredExactly(sensitive: Sensitive, key: string, sent: Json, stored: Option<Json>,
                                              path: seq<Step>)
    requires Merge(sensitive, key, sent, stored).Ok?
    requires At(sent, path) == Some(Text(MASKED)) && sensitive(Governing(key, path))
    ensures At(Merge(sensitive, key, sent, stored).value, path)
         == if stored.Some? && Aligned(sent, stored.value, path) then At(stored.value, path) else Some(Text(MASKED))
    decreases |path|
  {
    if path != [] {
      match path[0]
      case Key(k) =>
        if stored.Some? && stored.value.Dict? {
          StarsStoredExactly(sensitive, k, sent.entries[k], Entry(stored.value.entries, k), path[1..]);
        }
      case Index(i) =>
        if stored.Some? && stored.value.List? && |stored.value.items| == |sent.items| {
          StarsStoredExactly(sensitive, key, sent.items[i], Some(stored.value.items[i]), path[1..]);
        }
    }
  }

  /** The documented rule that *** is only accepted for keys that already exist does not reach inside a
      new dictionary: there the three stars are stored as the secret. */
  lemma StarsStoredUnderNewParent(sensitive: Sensitive, parent: string, k: string)
    requires !sensitive(parent) && sensitive(k)
    ensures Merge(sensitive, parent, Dict(map[k := Text(MASKED)]), None) == Ok(Dict(map[k := Text(MASKED)]))
  {
  }

  /** Nor does the promise that *** is replaced by the stored secret: adding an entry to a list that is
      sent back as it was shown overwrites every secret in the list with the stars. */
  lemma GrownListLosesSecrets(sensitive: Sensitive, key: string, stored: seq<Json>, added: Json, i: nat, k: string)
    requires !sensitive(key) && sensitive(k)
    requires i < |stored| && stored[i].Dict? && k in stored[i].entries
    ensures var shown := Mask(sensitive, List(stored)).items;
            var r := Merge(sensitive, key, List(shown + [added]), Some(List(stored)));
            r == Ok(List(shown + [added])) && At(r.value, [Index(i), Key(k)]) == Some(Text(MASKED))
  {
    var shown := Mask(sensitive, List(stored)).items;
    assert (shown + [added])[i] == Mask(sensitive, stored[i]);
    assert [Index(i), Key(k)][1..] == [Key(k)] && [Key(k)][1..] == [];
    assert At(shown[i], [Key(k)]) == At(Text(MASKED), []);
  }

  // ---- whole server configurations ----

  datatype OAuth = OAuth(clientSecret: Option<string>, refreshToken: Option<string>, rest: string)

  /** plain stands for the fields neither masking nor merging looks at. */
  datatype Config = Config(
    env: map<string, string>,
    headers: map<string, string>,
    oauth: Option<OAuth>,
    routing: string,
    tools: string,
    plain: string,
    extras: map<string, Json>)

  /** A configuration sent by a client; routing and tools may be left out. */
  datatype Update = Update(config: Config, sentRouting: bool, sentTools: bool)

  function MaskConfig(sensitive: Sensitive, c: Config): Config {
    c.(env := map k | k in c.env :: MASKED,
       headers := map k | k in c.headers :: MASKED,
       oauth := if c.oauth.Some? then Some(c.oauth.value.(clientSecret := None, refreshToken := None)) else None,
       extras := map k | k in c.extras :: if sensitive(k) then Text(MASKED) else Mask(sensitive, c.extras[k]))
  }

  function MergeStrings(incoming: map<string, string>,
                        existing: map<string, string>): Result<map<string, string>, Rejection> {
    if exists k | k in incoming :: incoming[k] == MASKED && k !in existing then Err(MaskedNewKey)
    else Ok(map k | k in incoming :: if incoming[k] == MASKED then existing[k] else incoming[k])
  }

  /** The loop that fills the merged dictionary key by key, stopping at the first unknown ***. */
  method MergeStringsInto(incoming: map<string, string>, existing: map<string, string>)
    returns (merged: Result<map<string, string>, Rejection>)
    ensures merged == MergeStrings(incoming, existing)
  {
    var filled: map<string, string> := map[];
    var left := incoming.Keys;
    while left != {}
      invariant left <= incoming.Keys && filled.Keys == incoming.Keys - left
      invariant forall k :: k in filled ==>
                  && (incoming[k] == MASKED ==> k in existing)
                  && filled[k] == if incoming[k] == MASKED then existing[k] else incoming[k]
      decreases |left|
    {
      var k :| k in left;
      if incoming[k] == MASKED {
        if k !in existing { return Err(MaskedNewKey); }
        filled := filled[k := existing[k]];
      } else {
        filled := filled[k := incoming[k]];
      }
      left := left - {k};
    }
    assert filled == map k | k in incoming :: if incoming[k] == MASKED then existing[k] else incoming[k];
    merged := Ok(filled);
  }

  /** None keeps the stored secret, an empty text clears it, anything else replaces it. */
  function MergeSecret(incoming: Option<string>, existing: Option<string>): Option<string> {
    match incoming
    case None => existing
    case Some(s) => if s == "" then None else Some(s)
  }

  function MergeOAuth(incoming: Option<OAuth>, existing: Option<OAuth>): Option<OAuth> {
    if incoming.Some? && existing.Some? then
      Some(incoming.value.(clientSecret := MergeSecret(incoming.value.clientSecret, existing.value.clientSecret),
                           refreshToken := MergeSecret(incoming.value.refreshToken, existing.value.refreshToken)))
    else incoming
  }

  function MergeExtra(sensitive: Sensitive, u: Update, stored: Config, k: string): Result<Json, Rejection>
    requires k in u.config.extras
  {
    Merge(sensitive, k, u.config.extras[k], Entry(stored.extras, k))
  }

  function MergeConfig(sensitive: Sensitive, u: Update, stored: Config): Result<Config, Rejection> {
    var env, headers := MergeStrings(u.config.env, stored.env), MergeStrings(u.config.headers, stored.headers);
    if env.Err? || headers.Err? then Err(MaskedNewKey)
    else if exists k | k in u.config.extras :: MergeExtra(sensitive, u, stored, k).Err? then Err(MaskedNewKey)
    else
      Ok(Config(env.value, headers.value, MergeOAuth(u.config.oauth, stored.oauth),
                if u.sentRouting then u.config.routing else stored.routing,
                if u.sentTools then u.config.tools else stored.tools,
                u.config.plain,
                map k | k in stored.extras.Keys + u.config.extras.Keys ::
                  if k in u.config.extras then MergeExtra(sensitive, u, stored, k).value else stored.extras[k]))
  }

  lemma StringsGetPut(stored: map<string, string>)
    ensures MergeStrings(map k | k in stored :: MASKED, stored) == Ok(stored)
  {
    var shown := map k | k in stored :: MASKED;
    var back := MergeStrings(shown, stored);
    assert back.Ok? && back.value.Keys == stored.Keys;
    assert back.value == stored;
  }

  /** GetPut for whole configurations: reading a configuration and sending it back is a no-op. */
  lemma ConfigGetPut(sensitive: Sensitive, x: Config, sentRouting: bool, sentTools: bool)
    ensures MergeConfig(sensitive, Update(MaskConfig(sensitive, x), sentRouting, sentTools), x) == Ok(x)
  {
    var u := Update(MaskConfig(sensitive, x), sentRouting, sentTools);
    forall k | k in u.config.extras ensures MergeExtra(sensitive, u, x, k) == Ok(x.extras[k]) {
      if !sensitive(k) { GetPut(sensitive, k, x.extras[k]); }
    }
    StringsGetPut(x.env);
    StringsGetPut(x.headers);
    var r := MergeConfig(sensitive, u, x);
    assert r.Ok? && r.value.extras == x.extras;
  }

  /** Exactly the keys sent remain; a value sent is the value kept, and stars keep the stored one. */
  ghost predicate StringsMerged(sent: map<string, string>, stored: map<string, string>, merged: map<string, string>) {
    && merged.Keys == sent.Keys
    && (forall k :: k in sent && sent[k] != "***" ==> merged[k] == sent[k])
    && (forall k :: k in sent && sent[k] == "***" ==> k in stored && merged[k] == stored[k])
  }

  /** A merge of variables or headers is refused exactly when stars are sent for a key that is not stored. */
  lemma StringsMergedExactly(sent: map<string, string>, stored: map<string, string>)
    ensures MergeStrings(sent, stored).Err? <==> exists k :: k in sent && sent[k] == "***" && k !in stored
    ensures MergeStrings(sent, stored).Ok? ==> StringsMerged(sent, stored, MergeStrings(sent, stored).value)
  {
  }

  /** A secret left out keeps the stored one, an empty one clears it, a new one replaces it. */
  predicate SecretMerged(sent: Option<string>, stored: Option<string>, merged: Option<string>) {
    && (sent == None ==> merged == stored)
    && (sent == Some("") ==> merged == None)
    && (sent.Some? && sent.value != "" ==> merged == sent)
  }

  predicate OAuthMerged(sent: Option<OAuth>, stored: Option<OAuth>, merged: Option<OAuth>) {
    if sent.None? || stored.None? then merged == sent
    else
      && merged.Some? && merged.value.rest == sent.value.rest
      && SecretMerged(sent.value.clientSecret, stored.value.clientSecret, merged.value.clientSecret)
      && SecretMerged(sent.value.refreshToken, stored.value.refreshToken, merged.value.refreshToken)
  }

  /** What is shown has no variable, no header and no OAuth secret in it, and no secret anywhere in the extras. */
  lemma ConfigHidesSecrets(sensitive: Sensitive, c: Config, e: string, path: seq<Step>, k: string)
    requires e in c.extras
    ensures var shown := MaskConfig(sensitive, c);
            && shown.env.Keys == c.env.Keys && (forall v :: v in shown.env.Values ==> v == "***")
            && shown.headers.Keys == c.headers.Keys && (forall v :: v in shown.headers.Values ==> v == "***")
            && (shown.oauth.Some? <==> c.oauth.Some?)
            && (shown.oauth.Some? ==>
                  shown.oauth == Some(OAuth(None, None, c.oauth.value.rest)))
            && shown.extras.Keys == c.extras.Keys
            && (sensitive(e) ==> shown.extras[e] == Text("***"))
            && (!sensitive(e) && sensitive(k) ==> At(shown.extras[e], path + [Key(k)]) in {None, Some(Text("***"))})
            && (shown.routing, shown.tools, shown.plain) == (c.routing, c.tools, c.plain)
  {
    if !sensitive(e) && sensitive(k) { NothingLeaks(sensitive, c.extras[e], path, k); }
  }

  /** An update is refused exactly when stars are sent for an unknown variable or header, or stand for an
      unknown secret in an extra. */
  lemma ConfigRejectedExactly(sensitive: Sensitive, u: Update, x: Config)
    ensures MergeConfig(sensitive, u, x).Err? <==>
              || (exists k :: k in u.config.env && u.config.env[k] == "***" && k !in x.env)
              || (exists k :: k in u.config.headers && u.config.headers[k] == "***" && k !in x.headers)
              || (exists k :: k in u.config.extras
                              && SendsUnknownSecret(sensitive, k, u.config.extras[k], Entry(x.extras, k)))
  {
    StringsMergedExactly(u.config.env, x.env);
    StringsMergedExactly(u.config.headers, x.headers);
    forall k | k in u.config.extras
      ensures MergeExtra(sensitive, u, x, k).Err?
         <==> SendsUnknownSecret(sensitive, k, u.config.extras[k], Entry(x.extras, k))
    {
      RejectedExactly(sensitive, k, u.config.extras[k], Entry(x.extras, k));
    }
  }

  /** PutGet for whole configurations: what is shown after an update is the update, masked, plus the masked
      extras it did not mention; what was sent is what is kept, and what was left masked is what was stored. */
  lemma ConfigPutGet(sensitive: Sensitive, u: Update, x: Config)
    requires MergeConfig(sensitive, u, x).Ok?
    ensures var r := MergeConfig(sensitive, u, x).value;
            var shown, sent := MaskConfig(sensitive, r), MaskConfig(sensitive, u.config);
            && shown.env == sent.env && shown.headers == sent.headers && shown.oauth == sent.oauth
            && shown.plain == sent.plain
            && (forall k :: k in u.config.extras ==> k in shown.extras && shown.extras[k] == sent.extras[k])
            && (forall k :: k in shown.extras && k !in u.config.extras ==>
                  k in x.extras && shown.extras[k] == MaskConfig(sensitive, x).extras[k])
            && StringsMerged(u.config.env, x.env, r.env) && StringsMerged(u.config.headers, x.headers, r.headers)
            && OAuthMerged(u.config.oauth, x.oauth, r.oauth)
            && r.extras.Keys == x.extras.Keys + u.config.extras.Keys
            && (forall k :: k in x.extras && k !in u.config.extras ==> r.extras[k] == x.extras[k])
            && (forall k :: k in u.config.extras ==>
                  Ok(r.extras[k]) == Merge(sensitive, k, u.config.extras[k], Entry(x.extras, k)))
            && r.routing == (if u.sentRouting then u.config.routing else x.routing)
            && r.tools == (if u.sentTools then u.config.tools else x.tools)
  {
    var r := MergeConfig(sensitive, u, x).value;
    StringsMergedExactly(u.config.env, x.env);
    StringsMergedExactly(u.config.headers, x.headers);
    forall k | k in u.config.extras ensures MergeExtra(sensitive, u, x, k) == Ok(r.extras[k]) {
      assert MergeExtra(sensitive, u, x, k).Ok?;
    }
    forall k | k in u.config.extras && !sensitive(k)
      ensures Mask(sensitive, r.extras[k]) == Mask(sensitive, u.config.extras[k])
    {
      assert MergeExtra(sensitive, u, x, k).Ok?;
      PutGet(sensitive, k, u.config.extras[k], Entry(x.extras, k));
    }
  }
}
