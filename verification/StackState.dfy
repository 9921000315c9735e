/** The worker's stack directory (agent_daemon/stack_provisioner.py).

    Provisioning and deprovisioning write several files before the state file; any of those writes,
    and any docker or psql call between them, may fail. Generated text is kept only as far as the
    tenants, databases and passwords that go into it. */
module StackState {
  import opened Options
  import opened Sequences
  import opened Sorting
  import opened EnvFile
  import opened Naming

  const POSTGRES_PASSWORD := "POSTGRES_PASSWORD"
  const PGBOUNCER_PASSWORD := "PGBOUNCER_PASSWORD"
  const PGBOUNCER_USER := "PGBOUNCER_USER"
  const POSTGRES_APP_USER := "POSTGRES_APP_USER"
  const ACME_EMAIL := "ACME_EMAIL"
  const CF_DNS_API_TOKEN := "CF_DNS_API_TOKEN"
  const CLOUDFLARE_DNS_API_TOKEN := "CLOUDFLARE_DNS_API_TOKEN"
  const COOKIE_SECRET := "HEADPLANE_COOKIE_SECRET"
  const ADMIN_PASSWORD := "HEADPLANE_ADMIN_PASSWORD"
  const INI := "pgbouncer/pgbouncer.ini"
  const USERS := "pgbouncer/userlist.txt"
  const INIT_SQL := "postgres/init/00-init.sql"
  const COMPOSE := "compose.yml"
  const ACL := "ACL.json"

  /** stack-state.json. */
  datatype Saved = Saved(initialized: bool, production: bool, sharedEdge: bool, tenants: seq<string>, databases: set<string>)

  const NOTHING_SAVED := Saved(false, false, false, [], {})

  datatype TenantDir = TenantDir(secrets: Option<string>, snippet: Option<string>)

  /** A tenant's part of the compose file: the text of its snippet. */
  datatype TenantBlock = TenantBlock(slug: string, text: string)

  datatype Content =
    | AccessList
    | Databases(names: set<string>)
    | Users(postgresPassword: string, pgbouncerUser: string, pgbouncerPassword: string)
    | CreateDatabases(password: string, names: set<string>)
    | Services(production: bool, sharedEdge: bool, network: string, blocks: seq<TenantBlock>)

  datatype Disk = Disk(saved: Option<Saved>, env: Option<string>, dirs: map<string, TenantDir>, files: map<string, Content>)
  {
    function State(): Saved { saved.GetOr(NOTHING_SAVED) }
  }

  function ReadFile(file: Option<string>): map<string, string> {
    if file.None? then map[] else ReadEnv(file.value)
  }

  function Setting(env: Env, key: string, default: string): string {
    if key in env then env[key] else default
  }

  function SecretsIn(dirs: map<string, TenantDir>, slug: string): map<string, string> {
    if slug in dirs then ReadFile(dirs[slug].secrets) else map[]
  }

  /** The fields of a provision_tenant payload that reach the disk. */
  datatype Payload = Payload(
    slug: string, dbName: string, production: bool, sharedEdge: bool, network: string,
    acmeEmail: string, cfToken: string, snippet: string)

  /** The freshly generated tokens a call may use. */
  datatype Tokens = Tokens(postgres: string, pgbouncer: string, cookie: string, admin: string) {
    predicate Hex() { HexToken(postgres) && HexToken(pgbouncer) && HexToken(cookie) && HexToken(admin) }
  }

  /** The effect at which a call is interrupted, and whether an exception or a reported failure. */
  datatype Fault = Fault(at: nat, raised: bool)

  datatype Outcome = Done | Failed | Raised

  // ----- Generated files -----

  predicate HasSnippet(dirs: map<string, TenantDir>, slug: string) {
    slug in dirs && dirs[slug].snippet.Some?
  }

  /** The snippets of the listed tenants, in order; a tenant without one is passed over. */
  function Blocks(dirs: map<string, TenantDir>, slugs: seq<string>): seq<TenantBlock> {
    if slugs == [] then []
    else
      (if HasSnippet(dirs, slugs[0]) then [TenantBlock(slugs[0], dirs[slugs[0]].snippet.value)] else [])
      + Blocks(dirs, slugs[1..])
  }

  lemma {:induction false} BlocksAreSnippets(dirs: map<string, TenantDir>, slugs: seq<string>, b: TenantBlock)
    ensures b in Blocks(dirs, slugs) <==> b.slug in slugs && b.slug in dirs && dirs[b.slug].snippet == Some(b.text)
  {
    if slugs != [] { BlocksAreSnippets(dirs, slugs[1..], b); }
  }

  /** No block comes before one with a lower slug. */
  ghost predicate Ordered(blocks: seq<TenantBlock>) {
    forall i, j :: 0 <= i < j < |blocks| ==> Below(blocks[i].slug, blocks[j].slug)
  }

  lemma OrderedAfter(first: TenantBlock, rest: seq<TenantBlock>)
    requires Ordered(rest) && forall j :: 0 <= j < |rest| ==> Below(first.slug, rest[j].slug)
    ensures Ordered([first] + rest)
  {
    var b := [first] + rest;
    forall i, j | 0 <= i < j < |b| ensures Below(b[i].slug, b[j].slug) {
      assert b[j] == rest[j - 1];
      if i > 0 { assert b[i] == rest[i - 1]; }
    }
  }

  lemma {:induction false} BlocksAreOrdered(dirs: map<string, TenantDir>, slugs: seq<string>)
    requires Sorted(Below, slugs)
    ensures Ordered(Blocks(dirs, slugs))
  {
    if slugs != [] {
      var rest := Blocks(dirs, slugs[1..]);
      BlocksAreOrdered(dirs, slugs[1..]);
      forall j | 0 <= j < |rest| ensures Below(slugs[0], rest[j].slug) {
        assert rest[j] in rest;
        BlocksAreSnippets(dirs, slugs[1..], rest[j]);
      }
      if HasSnippet(dirs, slugs[0]) {
        OrderedAfter(TenantBlock(slugs[0], dirs[slugs[0]].snippet.value), rest);
      } else {
        assert [] + rest == rest;
      }
    }
  }

  function Bundle(production: bool, sharedEdge: bool, network: string, databases: set<string>,
                  env: Env, postgresPassword: string, pgbouncerPassword: string, blocks: seq<TenantBlock>)
    : (b: seq<(string, Content)>)
  {
    var user := Setting(env, PGBOUNCER_USER, "pgbouncer");
    [ (ACL, AccessList),
      (INI, Databases(databases)),
      (USERS, Users(postgresPassword, user, pgbouncerPassword)),
      (INIT_SQL, CreateDatabases(postgresPassword, databases)),
      (COMPOSE, Services(production, sharedEdge, network, blocks)) ]
  }

  function Installed(files: map<string, Content>, bundle: seq<(string, Content)>): map<string, Content> {
    if bundle == [] then files
    else Installed(files, bundle[..|bundle| - 1])[bundle[|bundle| - 1].0 := bundle[|bundle| - 1].1]
  }

  /** The generated files list exactly the saved databases, and the blocks of those saved tenants whose
      directory has a snippet. */
  predicate Generated(d: Disk, s: Saved, network: string) {
    && INI in d.files && d.files[INI] == Databases(s.databases)
    && INIT_SQL in d.files && d.files[INIT_SQL].CreateDatabases? && d.files[INIT_SQL].names == s.databases
    && COMPOSE in d.files && d.files[COMPOSE] == Services(s.production, s.sharedEdge, network, Blocks(d.dirs, s.tenants))
  }

  /** The user list and the init script carry these passwords. */
  predicate Credentials(files: map<string, Content>, postgres: string, user: string, pgbouncer: string) {
    && USERS in files && files[USERS] == Users(postgres, user, pgbouncer)
    && INIT_SQL in files && files[INIT_SQL].CreateDatabases? && files[INIT_SQL].password == postgres
  }

  /** The generated files carry the passwords and the pooler's user that .env reads back. */
  predicate MatchesEnv(d: Disk) {
    var env := ReadFile(d.env);
    Credentials(d.files, Setting(env, POSTGRES_PASSWORD, ""), Setting(env, PGBOUNCER_USER, "pgbouncer"),
                Setting(env, PGBOUNCER_PASSWORD, ""))
  }

  lemma {:induction false} InstalledHas(files: map<string, Content>, bundle: seq<(string, Content)>, i: nat)
    requires i < |bundle| && forall j :: i < j < |bundle| ==> bundle[j].0 != bundle[i].0
    ensures bundle[i].0 in Installed(files, bundle) && Installed(files, bundle)[bundle[i].0] == bundle[i].1
  {
    if i < |bundle| - 1 { InstalledHas(files, bundle[..|bundle| - 1], i); }
  }

  lemma InstalledBundle(files: map<string, Content>, production: bool, sharedEdge: bool, network: string,
                        databases: set<string>, env: Env, postgres: string, pgbouncer: string, blocks: seq<TenantBlock>)
    ensures var f := Installed(files, Bundle(production, sharedEdge, network, databases, env, postgres, pgbouncer, blocks));
            && INI in f && f[INI] == Databases(databases)
            && INIT_SQL in f && f[INIT_SQL] == CreateDatabases(postgres, databases)
            && COMPOSE in f && f[COMPOSE] == Services(production, sharedEdge, network, blocks)
            && Credentials(f, postgres, Setting(env, PGBOUNCER_USER, "pgbouncer"), pgbouncer)
  {
    var b := Bundle(production, sharedEdge, network, databases, env, postgres, pgbouncer, blocks);
    InstalledHas(files, b, 1);
    InstalledHas(files, b, 2);
    InstalledHas(files, b, 3);
    InstalledHas(files, b, 4);
  }

  /** The sorted listing of a set of slugs. */
  ghost function Listed(slugs: set<string>): (r: seq<string>)
    ensures Sorted(Below, r) && Elements(r) == slugs
  {
    BelowIsOrder();
    SortedSeq(Below, slugs)
  }

  /** The saved tenant list with one slug added, or removed. */
  ghost function With(tenants: seq<string>, slug: string): seq<string> { Listed(Elements(tenants) + {slug}) }

  ghost function Without(tenants: seq<string>, slug: string): seq<string> { Listed(Elements(tenants) - {slug}) }

  method SortSlugs(slugs: set<string>) returns (r: seq<string>)
    ensures r == Listed(slugs)
  {
    BelowIsOrder();
    r := SortSet(Below, slugs);
  }

  // ----- What the two operations promise -----

  predicate MissingSetting(v: string) {
    Strip(v) == "" || "replace-me" <= Strip(v)
  }

  /** Requests refused before anything is written. */
  predicate Refused(d: Disk, p: Payload) {
    || !ValidDbName(p.dbName)
    || (p.production && !p.sharedEdge && (MissingSetting(p.acmeEmail) || MissingSetting(p.cfToken)))
    || (d.State().initialized && d.State().production != p.production)
  }

  ghost predicate Valid(d: Disk) {
    && Sorted(Below, d.State().tenants)
    && (d.State().initialized <==> d.State().tenants != [])
  }

  /** A kept secret keeps its value. */
  ghost predicate Keeps(env: Env, env': Env, key: string) {
    Established(env, key) ==> key in env' && env'[key] == env[key]
  }

  predicate IsPassword(key: string) { key == POSTGRES_PASSWORD || key == PGBOUNCER_PASSWORD }

  predicate IsTenantSecret(key: string) { key == COOKIE_SECRET || key == ADMIN_PASSWORD }

  ghost predicate PasswordsKept(env: Option<string>, env': Option<string>) {
    forall key :: IsPassword(key) ==> Keeps(ReadFile(env), ReadFile(env'), key)
  }

  ghost predicate PasswordsReady(env: Option<string>) {
    forall key :: IsPassword(key) ==> Established(ReadFile(env), key)
  }

  ghost predicate SecretsKept(env: Env, env': Env) {
    forall key :: IsTenantSecret(key) ==> Keeps(env, env', key)
  }

  ghost predicate SecretsReady(env: Env) {
    forall key :: IsTenantSecret(key) ==> Established(env, key)
  }

  /** Only the directory of slug may differ; its secrets are kept, and a snippet is at most replaced. */
  ghost predicate TenantKept(dirs: map<string, TenantDir>, dirs': map<string, TenantDir>, slug: string) {
    && dirs.Keys <= dirs'.Keys <= dirs.Keys + {slug}
    && (forall s :: s in dirs && s != slug ==> dirs'[s] == dirs[s])
    && SecretsKept(SecretsIn(dirs, slug), SecretsIn(dirs', slug))
    && (HasSnippet(dirs, slug) ==> HasSnippet(dirs', slug))
  }

  ghost predicate TenantReady(dirs: map<string, TenantDir>, slug: string, snippet: string) {
    slug in dirs && dirs[slug].snippet == Some(snippet) && SecretsReady(SecretsIn(dirs, slug))
  }

  /** The saved state with one tenant provisioned, or removed. */
  ghost function Enlisted(s: Saved, p: Payload): Saved {
    Saved(true, p.production, p.sharedEdge, With(s.tenants, p.slug), s.databases + {p.dbName})
  }

  ghost function Forgotten(s: Saved, slug: string, dbName: string): Saved {
    var tenants := Without(s.tenants, slug);
    s.(initialized := tenants != [], tenants := tenants, databases := s.databases - {dbName})
  }

  ghost predicate Provisioned(d: Disk, d': Disk, p: Payload, outcome: Outcome) {
    (Refused(d, p) ==> d' == d && !outcome.Done?) && Applied(d, d', p, outcome)
  }

  /** What a provision may do to the disk, by how it ends. */
  ghost predicate Applied(d: Disk, d': Disk, p: Payload, outcome: Outcome) {
    && PasswordsKept(d.env, d'.env)
    && TenantKept(d.dirs, d'.dirs, p.slug)
    && (!outcome.Done? ==> d'.saved == d.saved)
    && (outcome.Done? ==>
          && d'.saved == Some(Enlisted(d.State(), p))
          && Generated(d', d'.State(), p.network)
          && MatchesEnv(d') && SettingsWritten(d.env, d'.env, p)
          && PasswordsReady(d'.env) && TenantReady(d'.dirs, p.slug, p.snippet))
  }

  ghost predicate Deprovisioned(d: Disk, d': Disk, slug: string, dbName: string, network: string, outcome: Outcome) {
    var s := d.State();
    && (!ValidDbName(dbName) ==> d' == d && outcome.Raised?)
    && d'.env == d.env
    && (d'.dirs == d.dirs || d'.dirs == d.dirs - {slug})
    && (!outcome.Done? ==> d'.saved == d.saved)
    && (!s.initialized ==> d'.saved == d.saved && d'.files == d.files)
    && (outcome.Done? ==> slug !in d'.dirs)
    && (outcome.Done? && s.initialized ==>
          && d'.saved == Some(Forgotten(s, slug, dbName))
          && Generated(d', d'.State(), network)
          && MatchesEnv(d'))
  }

  // ----- Environment files -----

  predicate EdgeKey(k: string) { k == ACME_EMAIL || k == CF_DNS_API_TOKEN || k == CLOUDFLARE_DNS_API_TOKEN }

  /** The stack runs its own edge, so its settings go into .env. */
  predicate OwnEdge(p: Payload) { p.production && !p.sharedEdge }

  function EdgeValue(p: Payload, key: string): string { if key == ACME_EMAIL then Strip(p.acmeEmail) else Strip(p.cfToken) }

  predicate IsUser(key: string) { key == PGBOUNCER_USER || key == POSTGRES_APP_USER }

  function DefaultUser(key: string): string { if key == PGBOUNCER_USER then "pgbouncer" else "headscale" }

  /** The new map has the edge settings, the two users, and every other entry of the old one but the
      passwords. */
  ghost predicate SettingsIn(env: Env, env': Env, p: Payload) {
    && (forall k :: EdgeKey(k) && OwnEdge(p) ==> k in env' && env'[k] == EdgeValue(p, k))
    && (forall k :: k in env && !IsPassword(k) && !(EdgeKey(k) && OwnEdge(p)) ==> k in env' && env'[k] == env[k])
    && (forall k :: IsUser(k) && k !in env ==> k in env' && env'[k] == DefaultUser(k))
  }

  /** Unless an edge setting spans several lines, the settings read back from the new file. */
  ghost predicate SettingsWritten(file: Option<string>, file': Option<string>, p: Payload) {
    (OwnEdge(p) ==> SingleLine(p.acmeEmail) && SingleLine(p.cfToken)) ==> SettingsIn(ReadFile(file), ReadFile(file'), p)
  }

  function WithDefault(env: Env, key: string, value: string): Env {
    if key in env then env else env[key := value]
  }

  function SecretEnv(env: Env, tokens: Tokens): Env {
    WithSecret(WithSecret(env, POSTGRES_PASSWORD, tokens.postgres), PGBOUNCER_PASSWORD, tokens.pgbouncer)
  }

  function BaseEnv(env: Env): Env {
    WithDefault(WithDefault(env, PGBOUNCER_USER, "pgbouncer"), POSTGRES_APP_USER, "headscale")
  }

  function EdgeEnv(env: Env, p: Payload): Env {
    if p.production && !p.sharedEdge then
      env[ACME_EMAIL := Strip(p.acmeEmail)][CF_DNS_API_TOKEN := Strip(p.cfToken)]
         [CLOUDFLARE_DNS_API_TOKEN := Strip(p.cfToken)]
    else env
  }

  /** The .env map a provision writes: secrets first, then defaults, then the edge settings. */
  function StackEnv(env: Env, p: Payload, tokens: Tokens): Env {
    EdgeEnv(BaseEnv(SecretEnv(env, tokens)), p)
  }

  function TenantSecrets(env: Env, tokens: Tokens): Env {
    WithSecret(WithSecret(env, COOKIE_SECRET, tokens.cookie), ADMIN_PASSWORD, tokens.admin)
  }

  lemma PasswordKeysArePlain()
    ensures Plain(POSTGRES_PASSWORD) && Plain(PGBOUNCER_PASSWORD)
  {
  }

  lemma UserKeysArePlain()
    ensures Plain(PGBOUNCER_USER) && Plain(POSTGRES_APP_USER) && Plain("pgbouncer") && Plain("headscale")
  {
  }

  lemma TenantKeysArePlain()
    ensures Plain(COOKIE_SECRET) && Plain(ADMIN_PASSWORD)
  {
  }

  lemma WithSecretIsWellFormed(env: Env, key: string, drawn: string)
    requires WellFormed(env) && Plain(key) && HexToken(drawn)
    ensures WellFormed(WithSecret(env, key, drawn)) && Established(WithSecret(env, key, drawn), key)
    ensures Keeps(env, WithSecret(env, key, drawn), key)
  {
    HexTokenIsSecret(drawn);
    PlainIsOk(key);
  }

  lemma WithDefaultIsWellFormed(env: Env, key: string, value: string)
    requires WellFormed(env) && Plain(key) && Plain(value)
    ensures WellFormed(WithDefault(env, key, value))
    ensures forall k :: k in env ==> k in WithDefault(env, key, value) && WithDefault(env, key, value)[k] == env[k]
  {
  }

  ghost predicate PasswordsIn(env: Env, e: Env) {
    && Established(e, POSTGRES_PASSWORD) && Established(e, PGBOUNCER_PASSWORD)
    && Keeps(env, e, POSTGRES_PASSWORD) && Keeps(env, e, PGBOUNCER_PASSWORD)
  }

  lemma SecretEnvShape(env: Env, tokens: Tokens)
    requires WellFormed(env) && tokens.Hex()
    ensures WellFormed(SecretEnv(env, tokens)) && PasswordsIn(env, SecretEnv(env, tokens))
  {
    PasswordKeysArePlain();
    WithSecretIsWellFormed(env, POSTGRES_PASSWORD, tokens.postgres);
    WithSecretIsWellFormed(WithSecret(env, POSTGRES_PASSWORD, tokens.postgres), PGBOUNCER_PASSWORD, tokens.pgbouncer);
  }

  lemma BaseEnvShape(env: Env)
    requires WellFormed(env)
    ensures WellFormed(BaseEnv(env))
    ensures forall k :: k in env ==> k in BaseEnv(env) && BaseEnv(env)[k] == env[k]
  {
    UserKeysArePlain();
    WithDefaultIsWellFormed(env, PGBOUNCER_USER, "pgbouncer");
    WithDefaultIsWellFormed(WithDefault(env, PGBOUNCER_USER, "pgbouncer"), POSTGRES_APP_USER, "headscale");
  }

  lemma EdgeKeysAreNoPasswords()
    ensures !EdgeKey(POSTGRES_PASSWORD) && !EdgeKey(PGBOUNCER_PASSWORD)
  {
  }

  lemma EdgeEnvShape(env: Env, p: Payload, k: string)
    requires !EdgeKey(k)
    ensures k in EdgeEnv(env, p) <==> k in env
    ensures k in env ==> EdgeEnv(env, p)[k] == env[k]
  {
  }

  /** Every value written to .env is well formed, except perhaps the three edge settings. */
  lemma StackEnvShape(env: Env, p: Payload, tokens: Tokens)
    requires WellFormed(env) && tokens.Hex()
    ensures var e := StackEnv(env, p, tokens);
            && (forall k :: k in e && !EdgeKey(k) ==> KeyOk(k) && ValueOk(e[k]))
            && PasswordsIn(env, e)
  {
    var secrets := SecretEnv(env, tokens);
    var base := BaseEnv(secrets);
    SecretEnvShape(env, tokens);
    BaseEnvShape(secrets);
    EdgeKeysAreNoPasswords();
    EdgeEnvShape(base, p, POSTGRES_PASSWORD);
    EdgeEnvShape(base, p, PGBOUNCER_PASSWORD);
    forall k | k in StackEnv(env, p, tokens) && !EdgeKey(k) ensures KeyOk(k) && ValueOk(StackEnv(env, p, tokens)[k]) {
      EdgeEnvShape(base, p, k);
    }
  }

  /** Defaults and edge settings leave the passwords alone. */
  lemma PasswordsPassThrough(secrets: Env, p: Payload)
    requires POSTGRES_PASSWORD in secrets && PGBOUNCER_PASSWORD in secrets
    ensures var e := EdgeEnv(BaseEnv(secrets), p);
            && POSTGRES_PASSWORD in e && e[POSTGRES_PASSWORD] == secrets[POSTGRES_PASSWORD]
            && PGBOUNCER_PASSWORD in e && e[PGBOUNCER_PASSWORD] == secrets[PGBOUNCER_PASSWORD]
  {
    EdgeKeysAreNoPasswords();
    EdgeEnvShape(BaseEnv(secrets), p, POSTGRES_PASSWORD);
    EdgeEnvShape(BaseEnv(secrets), p, PGBOUNCER_PASSWORD);
  }

  /** In a map read from a file, the secret returned is the one stored. */
  lemma SecretIsStored(file: Env, key: string, drawn: string)
    requires WellFormed(file)
    ensures key in WithSecret(file, key, drawn)
    ensures WithSecret(file, key, drawn)[key] == if Established(file, key) then Strip(file[key]) else drawn
  {
    if key in file { StripTrims(file[key]); }
  }

  lemma EdgeKeysSortFirst(q: string, k: string)
    requires q == POSTGRES_PASSWORD || q == PGBOUNCER_PASSWORD || q == PGBOUNCER_USER
    requires k == q || Below(q, k)
    ensures !EdgeKey(k)
  {
  }

  lemma UserIsSet(env: Env, p: Payload, tokens: Tokens)
    ensures PGBOUNCER_USER in StackEnv(env, p, tokens)
  {
    EdgeEnvShape(BaseEnv(SecretEnv(env, tokens)), p, PGBOUNCER_USER);
  }

  /** The passwords and the pooler's user read back from the file as they are in the map. */
  ghost predicate ReadsBack(e: Env, file: Option<string>) {
    && Setting(ReadFile(file), POSTGRES_PASSWORD, "") == Setting(e, POSTGRES_PASSWORD, "")
    && Setting(ReadFile(file), PGBOUNCER_PASSWORD, "") == Setting(e, PGBOUNCER_PASSWORD, "")
    && Setting(ReadFile(file), PGBOUNCER_USER, "pgbouncer") == Setting(e, PGBOUNCER_USER, "pgbouncer")
  }

  /** Whatever the edge settings contain, the stack passwords and the pooler's user read back as written. */
  lemma PasswordsSurviveWrite(env: Env, p: Payload, tokens: Tokens)
    requires WellFormed(env) && tokens.Hex()
    ensures var e := StackEnv(env, p, tokens); PasswordsIn(env, ReadEnv(WriteEnv(e))) && ReadsBack(e, Some(WriteEnv(e)))
  {
    var e := StackEnv(env, p, tokens);
    StackEnvShape(env, p, tokens);
    UserIsSet(env, p, tokens);
    forall q | q == POSTGRES_PASSWORD || q == PGBOUNCER_PASSWORD || q == PGBOUNCER_USER
      ensures q in ReadEnv(WriteEnv(e)) && ReadEnv(WriteEnv(e))[q] == e[q]
    {
      forall k | k in e && (k == q || Below(q, k)) ensures KeyOk(k) && ValueOk(e[k]) { EdgeKeysSortFirst(q, k); }
      WrittenTailSurvives(e, q);
    }
  }

  /** Rewriting .env keeps the established passwords and establishes both. */
  lemma RewriteKeepsPasswords(file: Option<string>, p: Payload, tokens: Tokens)
    requires tokens.Hex()
    ensures var e := StackEnv(ReadFile(file), p, tokens);
            var file' := Some(WriteEnv(e));
            PasswordsReady(file') && PasswordsKept(file, file') && ReadsBack(e, file')
  {
    ReadFileIsWellFormed(file);
    PasswordsSurviveWrite(ReadFile(file), p, tokens);
  }

  lemma EdgeKeysArePlain()
    ensures Plain(ACME_EMAIL) && Plain(CF_DNS_API_TOKEN) && Plain(CLOUDFLARE_DNS_API_TOKEN)
  {
  }

  lemma EdgeEnvIsWellFormed(env: Env, p: Payload)
    requires WellFormed(env) && (OwnEdge(p) ==> SingleLine(p.acmeEmail) && SingleLine(p.cfToken))
    ensures WellFormed(EdgeEnv(env, p))
  {
    EdgeKeysArePlain();
    PlainIsOk(ACME_EMAIL);
    PlainIsOk(CF_DNS_API_TOKEN);
    PlainIsOk(CLOUDFLARE_DNS_API_TOKEN);
    StripTrims(p.acmeEmail);
    StripTrims(p.cfToken);
  }

  lemma EdgeEnvHas(env: Env, p: Payload, k: string)
    requires OwnEdge(p) && EdgeKey(k)
    ensures k in EdgeEnv(env, p) && EdgeEnv(env, p)[k] == EdgeValue(p, k)
  {
  }

  /** Secrets and defaults leave every other entry alone. */
  lemma OtherEntriesStay(env: Env, tokens: Tokens, k: string)
    requires k in env && !IsPassword(k)
    ensures k in BaseEnv(SecretEnv(env, tokens)) && BaseEnv(SecretEnv(env, tokens))[k] == env[k]
  {
  }

  lemma UsersAreAdded(env: Env, tokens: Tokens, k: string)
    requires IsUser(k) && k !in env
    ensures k in BaseEnv(SecretEnv(env, tokens)) && BaseEnv(SecretEnv(env, tokens))[k] == DefaultUser(k) && !EdgeKey(k)
  {
  }

  lemma StackEnvHasSettings(env: Env, p: Payload, tokens: Tokens)
    ensures SettingsIn(env, StackEnv(env, p, tokens), p)
  {
    var base := BaseEnv(SecretEnv(env, tokens));
    forall k | EdgeKey(k) && OwnEdge(p) ensures k in EdgeEnv(base, p) && EdgeEnv(base, p)[k] == EdgeValue(p, k) {
      EdgeEnvHas(base, p, k);
    }
    forall k | k in env && !IsPassword(k) && !(EdgeKey(k) && OwnEdge(p))
      ensures k in EdgeEnv(base, p) && EdgeEnv(base, p)[k] == env[k]
    {
      OtherEntriesStay(env, tokens, k);
      if !EdgeKey(k) { EdgeEnvShape(base, p, k); }
    }
    forall k | IsUser(k) && k !in env ensures k in EdgeEnv(base, p) && EdgeEnv(base, p)[k] == DefaultUser(k) {
      UsersAreAdded(env, tokens, k);
      EdgeEnvShape(base, p, k);
    }
  }

  lemma StackEnvIsWellFormed(env: Env, p: Payload, tokens: Tokens)
    requires WellFormed(env) && tokens.Hex() && (OwnEdge(p) ==> SingleLine(p.acmeEmail) && SingleLine(p.cfToken))
    ensures WellFormed(StackEnv(env, p, tokens))
  {
    SecretEnvShape(env, tokens);
    BaseEnvShape(SecretEnv(env, tokens));
    EdgeEnvIsWellFormed(BaseEnv(SecretEnv(env, tokens)), p);
  }

  lemma RewriteWritesSettings(file: Option<string>, p: Payload, tokens: Tokens)
    requires tokens.Hex()
    ensures SettingsWritten(file, Some(WriteEnv(StackEnv(ReadFile(file), p, tokens))), p)
  {
    ReadFileIsWellFormed(file);
    StackEnvHasSettings(ReadFile(file), p, tokens);
    if OwnEdge(p) ==> SingleLine(p.acmeEmail) && SingleLine(p.cfToken) {
      StackEnvIsWellFormed(ReadFile(file), p, tokens);
      RoundTrip(StackEnv(ReadFile(file), p, tokens));
    }
  }

  lemma TenantSecretsShape(env: Env, tokens: Tokens)
    requires WellFormed(env) && tokens.Hex()
    ensures var e := TenantSecrets(env, tokens); WellFormed(e) && SecretsReady(e) && SecretsKept(env, e)
  {
    TenantKeysArePlain();
    var e1 := WithSecret(env, COOKIE_SECRET, tokens.cookie);
    WithSecretIsWellFormed(env, COOKIE_SECRET, tokens.cookie);
    WithSecretIsWellFormed(e1, ADMIN_PASSWORD, tokens.admin);
  }

  lemma TenantSecretsSurviveWrite(env: Env, tokens: Tokens)
    requires WellFormed(env) && tokens.Hex()
    ensures var e' := ReadEnv(WriteEnv(TenantSecrets(env, tokens)));
            SecretsReady(e') && SecretsKept(env, e')
  {
    TenantSecretsShape(env, tokens);
    RoundTrip(TenantSecrets(env, tokens));
  }

  lemma ReadFileIsWellFormed(file: Option<string>)
    ensures WellFormed(ReadFile(file))
  {
    if file.Some? { ReadFromIsWellFormed(file.value, map[]); }
  }

  // ----- The provisioner -----

  class StackProvisioner {
    var saved: Option<Saved>
    var env: Option<string>
    var dirs: map<string, TenantDir>
    var files: map<string, Content>

    ghost function View(): Disk
      reads this
    {
      Disk(saved, env, dirs, files)
    }

    constructor (env: Option<string>)
      ensures View() == Disk(None, env, map[], map[]) && Valid(View())
    {
      this.env := env;
      saved, dirs, files := None, map[], map[];
    }

    method CollectBlocks(slugs: seq<string>) returns (blocks: seq<TenantBlock>)
      ensures blocks == Blocks(dirs, slugs)
    {
      blocks := [];
      var i := |slugs|;
      while i > 0
        invariant 0 <= i <= |slugs|
        invariant blocks == Blocks(dirs, slugs[i..])
      {
        i := i - 1;
        assert slugs[i..][1..] == slugs[i + 1..];
        if slugs[i] in dirs && dirs[slugs[i]].snippet.Some? {
          blocks := [TenantBlock(slugs[i], dirs[slugs[i]].snippet.value)] + blocks;
        }
      }
      assert slugs[0..] == slugs;
    }

    /** Writes the bundle file by file; file number stopAt, if there is one, fails. */
    method WriteBundle(bundle: seq<(string, Content)>, stopAt: int) returns (ok: bool)
      modifies this`files
      ensures ok <==> !(0 <= stopAt < |bundle|)
      ensures files == Installed(old(files), if ok then bundle else bundle[..stopAt])
    {
      var i := 0;
      while i < |bundle|
        invariant 0 <= i <= |bundle|
        invariant 0 <= stopAt < |bundle| ==> i <= stopAt
        invariant files == Installed(old(files), bundle[..i])
      {
        if i == stopAt {
          return false;
        }
        assert bundle[..i + 1][..i] == bundle[..i];
        files := files[bundle[i].0 := bundle[i].1];
        i := i + 1;
      }
      assert bundle[..i] == bundle;
      return true;
    }

    /** Regenerates the stack files for the given tenants; file number stopAt may fail. */
    method WriteStackBundle(s: Saved, network: string, values: Env, postgres: string, pgbouncer: string, stopAt: int)
      returns (ok: bool)
      modifies this`files
      ensures ok <==> !(0 <= stopAt < 5)
      ensures ok ==> Generated(View(), s, network)
      ensures ok ==> Credentials(files, postgres, Setting(values, PGBOUNCER_USER, "pgbouncer"), pgbouncer)
    {
      var blocks := CollectBlocks(s.tenants);
      var bundle := Bundle(s.production, s.sharedEdge, network, s.databases, values, postgres, pgbouncer, blocks);
      InstalledBundle(files, s.production, s.sharedEdge, network, s.databases, values, postgres, pgbouncer, blocks);
      ok := WriteBundle(bundle, stopAt);
    }

    static method DrawPasswords(file: Env, tokens: Tokens) returns (values: Env, postgres: string, pgbouncer: string)
      requires WellFormed(file) && tokens.Hex()
      ensures values == SecretEnv(file, tokens)
      ensures POSTGRES_PASSWORD in values && postgres == values[POSTGRES_PASSWORD]
      ensures PGBOUNCER_PASSWORD in values && pgbouncer == values[PGBOUNCER_PASSWORD]
    {
      SecretIsStored(file, POSTGRES_PASSWORD, tokens.postgres);
      values, postgres := EnsureSecret(file, POSTGRES_PASSWORD, tokens.postgres);
      PasswordKeysArePlain();
      WithSecretIsWellFormed(file, POSTGRES_PASSWORD, tokens.postgres);
      SecretIsStored(values, PGBOUNCER_PASSWORD, tokens.pgbouncer);
      values, pgbouncer := EnsureSecret(values, PGBOUNCER_PASSWORD, tokens.pgbouncer);
    }

    static method AddSettings(secrets: Env, p: Payload) returns (values: Env)
      ensures values == EdgeEnv(BaseEnv(secrets), p)
    {
      values := WithDefault(secrets, PGBOUNCER_USER, "pgbouncer");
      values := WithDefault(values, POSTGRES_APP_USER, "headscale");
      if p.production && !p.sharedEdge {
        values := values[ACME_EMAIL := Strip(p.acmeEmail)];
        values := values[CF_DNS_API_TOKEN := Strip(p.cfToken)];
        values := values[CLOUDFLARE_DNS_API_TOKEN := values[CF_DNS_API_TOKEN]];
      }
    }

    method WriteStackEnv(p: Payload, tokens: Tokens) returns (values: Env, postgres: string, pgbouncer: string)
      requires tokens.Hex()
      modifies this`env
      ensures values == StackEnv(ReadFile(old(env)), p, tokens) && env == Some(WriteEnv(values))
      ensures POSTGRES_PASSWORD in values && postgres == values[POSTGRES_PASSWORD]
      ensures PGBOUNCER_PASSWORD in values && pgbouncer == values[PGBOUNCER_PASSWORD]
      ensures PasswordsReady(env) && PasswordsKept(old(env), env) && ReadsBack(values, env)
      ensures SettingsWritten(old(env), env, p)
    {
      ReadFileIsWellFormed(env);
      RewriteWritesSettings(env, p, tokens);
      RewriteKeepsPasswords(env, p, tokens);
      var file := ReadEnvFile(env);
      values, postgres, pgbouncer := DrawPasswords(file, tokens);
      PasswordsPassThrough(values, p);
      values := AddSettings(values, p);
      var text := WriteEnvFile(values);
      env := Some(text);
    }

    static method RenewSecrets(file: Option<string>, tokens: Tokens) returns (text: string)
      requires tokens.Hex()
      ensures SecretsReady(ReadEnv(text)) && SecretsKept(ReadFile(file), ReadEnv(text))
    {
      ReadFileIsWellFormed(file);
      var values := ReadEnvFile(file);
      TenantSecretsSurviveWrite(values, tokens);
      var cookie, admin;
      values, cookie := EnsureSecret(values, COOKIE_SECRET, tokens.cookie);
      values, admin := EnsureSecret(values, ADMIN_PASSWORD, tokens.admin);
      text := WriteEnvFile(values);
    }

    /** Effects 1 to 3: the directory, its secrets, its compose snippet. */
    method WriteTenantDir(slug: string, snippet: string, tokens: Tokens, fault: Fault) returns (ok: bool)
      requires tokens.Hex()
      modifies this`dirs
      ensures ok <==> !(1 <= fault.at <= 3)
      ensures TenantKept(old(dirs), dirs, slug)
      ensures ok ==> TenantReady(dirs, slug, snippet)
    {
      if fault.at == 1 { return false; }
      if slug !in dirs {
        dirs := dirs[slug := TenantDir(None, None)];
      }
      if fault.at == 2 { return false; }
      assert SecretsKept(SecretsIn(old(dirs), slug), SecretsIn(dirs, slug));
      var text := RenewSecrets(dirs[slug].secrets, tokens);
      dirs := dirs[slug := dirs[slug].(secrets := Some(text))];
      if fault.at == 3 { return false; }
      dirs := dirs[slug := dirs[slug].(snippet := Some(snippet))];
      return true;
    }

    /** The checks made before anything is written. */
    method CheckProvision(p: Payload) returns (refusal: Option<Outcome>)
      ensures refusal.Some? <==> Refused(View(), p)
      ensures refusal != Some(Done)
    {
      if !ValidDbName(p.dbName) {
        return Some(Raised);
      }
      if p.production && !p.sharedEdge {
        if MissingSetting(p.acmeEmail) || MissingSetting(p.cfToken) {
          return Some(Failed);
        }
      }
      var s := saved.GetOr(NOTHING_SAVED);
      if s.initialized && s.production != p.production {
        return Some(Failed);
      }
      return None;
    }

    /** _provision_impl and its wrapper. Effects are numbered: 0 .env, 1 tenant directory, 2 secrets,
        3 compose snippet, 4-8 bundle, 9 compose up, 10 ensure database, 11 save state. */
    method Provision(p: Payload, tokens: Tokens, fault: Fault) returns (outcome: Outcome)
      requires Valid(View()) && tokens.Hex()
      modifies this
      ensures Valid(View())
      ensures Provisioned(old(View()), View(), p, outcome)
      ensures outcome.Done? <==> !Refused(old(View()), p) && fault.at >= 12
    {
      var refusal := CheckProvision(p);
      if refusal.Some? {
        return refusal.value;
      }
      outcome := ApplyProvision(p, tokens, fault);
    }

    /** The first part of a provision (effects 0 to 3): .env and the tenant's directory. */
    method Prepare(p: Payload, tokens: Tokens, fault: Fault)
      returns (ok: bool, values: Env, postgres: string, pgbouncer: string)
      requires tokens.Hex()
      modifies this`env, this`dirs
      ensures ok <==> !(0 <= fault.at <= 3)
      ensures PasswordsKept(old(env), env) && TenantKept(old(dirs), dirs, p.slug)
      ensures ok ==> PasswordsReady(env) && TenantReady(dirs, p.slug, p.snippet) && ReadsBack(values, env)
      ensures ok ==> SettingsWritten(old(env), env, p)
      ensures ok ==> POSTGRES_PASSWORD in values && postgres == values[POSTGRES_PASSWORD]
      ensures ok ==> PGBOUNCER_PASSWORD in values && pgbouncer == values[PGBOUNCER_PASSWORD]
    {
      if fault.at == 0 { return false, map[], "", ""; }
      values, postgres, pgbouncer := WriteStackEnv(p, tokens);
      ok := WriteTenantDir(p.slug, p.snippet, tokens, fault);
    }

    method ApplyProvision(p: Payload, tokens: Tokens, fault: Fault) returns (outcome: Outcome)
      requires Valid(View()) && tokens.Hex()
      modifies this
      ensures Valid(View())
      ensures Applied(old(View()), View(), p, outcome)
      ensures outcome.Done? <==> fault.at >= 12
    {
      var s := saved.GetOr(NOTHING_SAVED);
      var prepared, values, postgres, pgbouncer := Prepare(p, tokens, fault);
      if !prepared { return Raised; }
      outcome := Enlist(s, p, values, postgres, pgbouncer, fault);
      assert outcome.Done? ==> p.slug in Elements(With(s.tenants, p.slug));
    }

    /** The last part of a provision (effects 4 to 11): bundle, docker, database, state file. */
    method Enlist(s: Saved, p: Payload, values: Env, postgres: string, pgbouncer: string, fault: Fault) returns (outcome: Outcome)
      modifies this`files, this`saved
      ensures outcome.Done? <==> !(4 <= fault.at <= 11)
      ensures !outcome.Done? ==> saved == old(saved)
      ensures outcome.Done? ==> saved == Some(Enlisted(s, p)) && Generated(View(), View().State(), p.network)
      ensures outcome.Done? ==> Credentials(files, postgres, Setting(values, PGBOUNCER_USER, "pgbouncer"), pgbouncer)
    {
      var tenants := SortSlugs(Elements(s.tenants) + {p.slug});
      var s' := Saved(true, p.production, p.sharedEdge, tenants, s.databases + {p.dbName});
      var written := WriteStackBundle(s', p.network, values, postgres, pgbouncer, fault.at - 4);
      if !written { return Raised; }
      if fault.at == 9 || fault.at == 10 {
        return if fault.raised then Raised else Failed;
      }
      if fault.at == 11 { return Raised; }
      saved := Some(s');
      return Done;
    }

    /** The stack files for the remaining tenants (effects 2 to 6), then compose up (effect 7). */
    method RestartStack(s: Saved, network: string, fault: Fault) returns (outcome: Outcome)
      modifies this`files
      ensures outcome.Done? ==> Generated(View(), s, network) && MatchesEnv(View())
      ensures !(2 <= fault.at <= 7) ==> outcome.Done?
    {
      var values := ReadEnvFile(env);
      var postgres := Setting(values, POSTGRES_PASSWORD, "");
      var pgbouncer := Setting(values, PGBOUNCER_PASSWORD, "");
      var written := WriteStackBundle(s, network, values, postgres, pgbouncer, fault.at - 2);
      if !written { return Raised; }
      if COMPOSE in files && fault.at == 7 {
        return if fault.raised then Raised else Failed;
      }
      return Done;
    }

    method HasPassword() returns (yes: bool)
    {
      var values := ReadEnvFile(env);
      yes := POSTGRES_PASSWORD in values && values[POSTGRES_PASSWORD] != "";
    }

    /** Effects: 0 compose rm (only with a compose file), 1 remove directory, 2-6 bundle and 7 compose
        up (both only when initialized), 8 drop database (only with a password), 9 save state. */
    method Deprovision(slug: string, dbName: string, network: string, fault: Fault) returns (outcome: Outcome)
      requires Valid(View())
      modifies this
      ensures Valid(View())
      ensures Deprovisioned(old(View()), View(), slug, dbName, network, outcome)
      ensures ValidDbName(dbName) && fault.at >= 10 ==> outcome.Done?
    {
      if !ValidDbName(dbName) {
        return Raised;
      }
      var s := saved.GetOr(NOTHING_SAVED);
      if COMPOSE in files && fault.at == 0 {
        return if fault.raised then Raised else Failed;
      }
      if slug in dirs {
        if fault.at == 1 { return Raised; }
        dirs := dirs - {slug};
      }
      outcome := Forget(s, slug, dbName, network, fault);
    }

    /** The last part of a deprovision (effects 2 to 9): bundle, compose up, database, state file. */
    method Forget(s: Saved, slug: string, dbName: string, network: string, fault: Fault) returns (outcome: Outcome)
      modifies this`files, this`saved
      ensures !(2 <= fault.at <= 9) ==> outcome.Done?
      ensures !outcome.Done? ==> saved == old(saved)
      ensures !s.initialized ==> saved == old(saved) && files == old(files)
      ensures outcome.Done? && s.initialized ==>
                && saved == Some(Forgotten(s, slug, dbName)) && Generated(View(), View().State(), network)
                && MatchesEnv(View())
    {
      var tenants := SortSlugs(Elements(s.tenants) - {slug});
      var s' := s.(initialized := tenants != [], tenants := tenants, databases := s.databases - {dbName});
      if s.initialized {
        var restarted := RestartStack(s', network, fault);
        if !restarted.Done? { return restarted; }
      }
      var password := HasPassword();
      if password && fault.at == 8 {
        return if fault.raised then Raised else Failed;
      }
      if s.initialized {
        if fault.at == 9 { return Raised; }
        saved := Some(s');
      }
      return Done;
    }
  }

  // ----- Runs of operations -----

  datatype Op =
    | Provision(p: Payload)
    | Deprovision(slug: string, dbName: string, network: string)
  {
    function Slug(): string { if Provision? then p.slug else slug }
  }

  ghost predicate OpStep(d: Disk, op: Op, outcome: Outcome, d': Disk) {
    match op
    case Provision(p) => Provisioned(d, d', p, outcome)
    case Deprovision(slug, dbName, network) => Deprovisioned(d, d', slug, dbName, network, outcome)
  }

  /** disks[i + 1] results from disks[i] by ops[i], which ended in outs[i]. */
  ghost predicate StepAt(disks: seq<Disk>, ops: seq<Op>, outs: seq<Outcome>, i: nat)
    requires |disks| == |ops| + 1 && |outs| == |ops| && i < |ops|
  {
    OpStep(disks[i], ops[i], outs[i], disks[i + 1])
  }

  ghost predicate History(disks: seq<Disk>, ops: seq<Op>, outs: seq<Outcome>) {
    && |disks| == |ops| + 1 && |outs| == |ops|
    && forall i: nat :: i < |ops| ==> StepAt(disks, ops, outs, i)
  }

  lemma HistoryUpTo(disks: seq<Disk>, ops: seq<Op>, outs: seq<Outcome>, n: nat)
    requires History(disks, ops, outs) && n <= |ops|
    ensures History(disks[..n + 1], ops[..n], outs[..n])
    ensures disks[..n + 1][0] == disks[0] && disks[..n + 1][n] == disks[n]
  {
    var ds, os, rs := disks[..n + 1], ops[..n], outs[..n];
    forall i: nat | i < n ensures StepAt(ds, os, rs, i) {
      assert StepAt(disks, ops, outs, i);
    }
  }

  /** The mode in which slug was last successfully provisioned, unless it was removed since. */
  function ModeOf(ops: seq<Op>, outs: seq<Outcome>, slug: string): Option<bool>
    requires |ops| == |outs|
  {
    if ops == [] then None
    else
      var n := |ops| - 1;
      if outs[n].Done? && ops[n].Slug() == slug then
        if ops[n].Provision? then Some(ops[n].p.production) else None
      else ModeOf(ops[..n], outs[..n], slug)
  }

  lemma StepKeepsValid(d: Disk, op: Op, outcome: Outcome, d': Disk)
    requires Valid(d) && OpStep(d, op, outcome, d')
    ensures Valid(d')
  {
  }

  /** What one operation means for whether a tenant is saved, and in which mode. */
  lemma SavedStep(d: Disk, op: Op, outcome: Outcome, d': Disk, slug: string)
    requires Valid(d) && OpStep(d, op, outcome, d')
    ensures var was, now := d.State(), d'.State();
            && (slug in now.tenants <==>
                  if outcome.Done? && op.Slug() == slug then op.Provision? else slug in was.tenants)
            && (outcome.Done? && op.Provision? ==> now.production == op.p.production)
            && (slug in was.tenants && slug in now.tenants ==> now.production == was.production)
            && (outcome.Done? && op.Provision? ==>
                  now.sharedEdge == op.p.sharedEdge && now.databases == was.databases + {op.p.dbName})
            && (outcome.Done? && op.Deprovision? && was.initialized ==>
                  now.sharedEdge == was.sharedEdge && now.databases == was.databases - {op.dbName})
  {
    assert slug in d.State().tenants <==> slug in Elements(d.State().tenants);
    assert slug in d'.State().tenants <==> slug in Elements(d'.State().tenants);
  }

  /** After any successes and failures, from a directory without a state file: the saved tenants are
      sorted and are exactly those whose last successful operation was a provision, each of them made
      in the saved production mode; and the stack counts as initialized iff there is one. */
  lemma {:induction false} SavedStateFollowsHistory(disks: seq<Disk>, ops: seq<Op>, outs: seq<Outcome>)
    requires History(disks, ops, outs) && disks[0].saved.None?
    ensures var s := disks[|ops|].State();
            && Valid(disks[|ops|])
            && (forall slug {:trigger slug in s.tenants} :: slug in s.tenants <==> ModeOf(ops, outs, slug).Some?)
            && (forall slug {:trigger slug in s.tenants} :: slug in s.tenants ==> ModeOf(ops, outs, slug) == Some(s.production))
  {
    if ops != [] {
      var n := |ops| - 1;
      HistoryUpTo(disks, ops, outs, n);
      SavedStateFollowsHistory(disks[..n + 1], ops[..n], outs[..n]);
      var d, d' := disks[n], disks[n + 1];
      assert StepAt(disks, ops, outs, n);
      StepKeepsValid(d, ops[n], outs[n], d');
      forall slug
        ensures slug in d'.State().tenants <==> ModeOf(ops, outs, slug).Some?
        ensures slug in d'.State().tenants ==> ModeOf(ops, outs, slug) == Some(d'.State().production)
      {
        SavedStep(d, ops[n], outs[n], d', slug);
        assert slug in d.State().tenants <==> ModeOf(ops[..n], outs[..n], slug).Some?;
      }
    }
  }

  /** The state file changes only in operations that end well. */
  lemma {:induction false} FailuresLeaveStateFile(disks: seq<Disk>, ops: seq<Op>, outs: seq<Outcome>, i: nat, j: nat)
    requires History(disks, ops, outs) && i <= j < |disks|
    requires forall k :: i <= k < j ==> !outs[k].Done?
    ensures disks[j].saved == disks[i].saved
  {
    if i < j {
      FailuresLeaveStateFile(disks, ops, outs, i, j - 1);
      assert StepAt(disks, ops, outs, j - 1);
    }
  }

  ghost predicate HasBlock(d: Disk, slug: string) {
    COMPOSE in d.files && d.files[COMPOSE].Services? && exists b :: b in d.files[COMPOSE].blocks && b.slug == slug
  }

  /** Whatever failed before, each success that saves a state leaves generated files that list exactly
      its databases; a tenant has a block in the compose file if and only if it is saved and its
      directory still has its snippet. */
  lemma SuccessesGenerateWhatIsSaved(disks: seq<Disk>, ops: seq<Op>, outs: seq<Outcome>, n: nat)
    requires History(disks, ops, outs) && n < |ops| && outs[n].Done?
    requires ops[n].Provision? || disks[n].State().initialized
    ensures var d, s := disks[n + 1], disks[n + 1].State();
            && INI in d.files && d.files[INI] == Databases(s.databases)
            && INIT_SQL in d.files && d.files[INIT_SQL].CreateDatabases? && d.files[INIT_SQL].names == s.databases
            && forall slug :: HasBlock(d, slug) <==> slug in s.tenants && HasSnippet(d.dirs, slug)
  {
    var d := disks[n + 1];
    assert StepAt(disks, ops, outs, n);
    forall slug ensures HasBlock(d, slug) <==> slug in d.State().tenants && HasSnippet(d.dirs, slug) {
      OneBlock(d, d.State().tenants, slug);
    }
  }

  /** After every success on an initialized stack the user list and the init script carry exactly what the
      directory's .env reads back: POSTGRES_PASSWORD for the database user and in the init script, and
      PGBOUNCER_PASSWORD for PGBOUNCER_USER. After a provision both passwords are real secrets. */
  lemma SuccessesGeneratePasswords(disks: seq<Disk>, ops: seq<Op>, outs: seq<Outcome>, n: nat)
    requires History(disks, ops, outs) && n < |ops| && outs[n].Done?
    requires ops[n].Provision? || disks[n].State().initialized
    ensures var files, env := disks[n + 1].files, ReadFile(disks[n + 1].env);
            var postgres := if POSTGRES_PASSWORD in env then env[POSTGRES_PASSWORD] else "";
            && USERS in files && files[USERS].Users?
            && files[USERS].postgresPassword == postgres
            && files[USERS].pgbouncerUser == (if PGBOUNCER_USER in env then env[PGBOUNCER_USER] else "pgbouncer")
            && files[USERS].pgbouncerPassword == (if PGBOUNCER_PASSWORD in env then env[PGBOUNCER_PASSWORD] else "")
            && INIT_SQL in files && files[INIT_SQL].CreateDatabases? && files[INIT_SQL].password == postgres
            && (ops[n].Provision? ==> Established(env, POSTGRES_PASSWORD) && Established(env, PGBOUNCER_PASSWORD))
  {
    assert StepAt(disks, ops, outs, n);
  }

  ghost predicate Carries(d: Disk, postgres: string, pgbouncer: string) {
    && USERS in d.files && d.files[USERS].Users?
    && d.files[USERS].postgresPassword == postgres && d.files[USERS].pgbouncerPassword == pgbouncer
  }

  lemma EstablishedIsCarried(d: Disk)
    requires MatchesEnv(d) && PasswordsReady(d.env)
    ensures var env := ReadFile(d.env);
            && POSTGRES_PASSWORD in env && env[POSTGRES_PASSWORD] != ""
            && PGBOUNCER_PASSWORD in env && env[PGBOUNCER_PASSWORD] != ""
            && Carries(d, env[POSTGRES_PASSWORD], env[PGBOUNCER_PASSWORD])
  {
    assert IsPassword(POSTGRES_PASSWORD) && IsPassword(PGBOUNCER_PASSWORD);
  }

  lemma SuccessIsReady(disks: seq<Disk>, ops: seq<Op>, outs: seq<Outcome>, n: nat)
    requires History(disks, ops, outs) && n < |ops| && outs[n].Done?
    ensures ops[n].Provision? || disks[n].State().initialized ==> MatchesEnv(disks[n + 1])
    ensures ops[n].Provision? ==> PasswordsReady(disks[n + 1].env)
  {
    assert StepAt(disks, ops, outs, n);
  }

  lemma PasswordsStayReady(disks: seq<Disk>, ops: seq<Op>, outs: seq<Outcome>, i: nat, j: nat)
    requires History(disks, ops, outs) && i <= j < |disks| && PasswordsReady(disks[i].env)
    ensures PasswordsReady(disks[j].env)
    ensures forall key :: IsPassword(key) ==> ReadFile(disks[j].env)[key] == ReadFile(disks[i].env)[key]
  {
    forall key | IsPassword(key)
      ensures Established(ReadFile(disks[j].env), key)
      ensures ReadFile(disks[j].env)[key] == ReadFile(disks[i].env)[key]
    {
      PasswordsNeverChange(disks, ops, outs, i, j, key);
    }
  }

  lemma SamePasswords(d: Disk, d': Disk) returns (postgres: string, pgbouncer: string)
    requires MatchesEnv(d) && PasswordsReady(d.env) && MatchesEnv(d') && PasswordsReady(d'.env)
    requires forall key :: IsPassword(key) ==> ReadFile(d'.env)[key] == ReadFile(d.env)[key]
    ensures postgres != "" && pgbouncer != "" && Carries(d, postgres, pgbouncer) && Carries(d', postgres, pgbouncer)
  {
    EstablishedIsCarried(d);
    EstablishedIsCarried(d');
    return ReadFile(d.env)[POSTGRES_PASSWORD], ReadFile(d.env)[PGBOUNCER_PASSWORD];
  }

  /** The passwords a provision generates are generated by every later success too. */
  lemma GeneratedPasswordsStay(disks: seq<Disk>, ops: seq<Op>, outs: seq<Outcome>, m: nat, n: nat)
    returns (postgres: string, pgbouncer: string)
    requires History(disks, ops, outs) && m <= n < |ops| && outs[m].Done? && outs[n].Done?
    requires ops[m].Provision? && (ops[n].Provision? || disks[n].State().initialized)
    ensures postgres != "" && pgbouncer != ""
    ensures Carries(disks[m + 1], postgres, pgbouncer) && Carries(disks[n + 1], postgres, pgbouncer)
  {
    SuccessIsReady(disks, ops, outs, m);
    SuccessIsReady(disks, ops, outs, n);
    PasswordsStayReady(disks, ops, outs, m + 1, n + 1);
    postgres, pgbouncer := SamePasswords(disks[m + 1], disks[n + 1]);
  }

  /** The compose file has the mode of the saved state, this network, and the text of each saved tenant's
      snippet, ordered by slug. */
  ghost predicate ComposeIs(d: Disk, network: string) {
    && COMPOSE in d.files && d.files[COMPOSE].Services?
    && var c, s := d.files[COMPOSE], d.State();
    && c.production == s.production && c.sharedEdge == s.sharedEdge && c.network == network
    && Ordered(c.blocks)
    && forall b :: b in c.blocks <==> b.slug in s.tenants && b.slug in d.dirs && d.dirs[b.slug].snippet == Some(b.text)
  }

  lemma GeneratedCompose(d: Disk, network: string)
    requires Generated(d, d.State(), network) && Sorted(Below, d.State().tenants)
    ensures ComposeIs(d, network)
  {
    var slugs := d.State().tenants;
    var blocks := Blocks(d.dirs, slugs);
    assert d.files[COMPOSE].blocks == blocks;
    BlocksAreOrdered(d.dirs, slugs);
    forall b ensures b in blocks <==> b.slug in slugs && b.slug in d.dirs && d.dirs[b.slug].snippet == Some(b.text) {
      BlocksAreSnippets(d.dirs, slugs, b);
    }
  }

  /** So it is after every success on an initialized stack, with the network of the request. */
  lemma ComposeFileIsExact(disks: seq<Disk>, ops: seq<Op>, outs: seq<Outcome>, n: nat)
    requires History(disks, ops, outs) && n < |ops| && outs[n].Done?
    requires ops[n].Provision? || disks[n].State().initialized
    ensures ComposeIs(disks[n + 1], if ops[n].Provision? then ops[n].p.network else ops[n].network)
  {
    assert StepAt(disks, ops, outs, n);
    GeneratedCompose(disks[n + 1], if ops[n].Provision? then ops[n].p.network else ops[n].network);
  }

  ghost predicate EdgeSettingsIn(env: Env, p: Payload) {
    && ACME_EMAIL in env && env[ACME_EMAIL] == Strip(p.acmeEmail)
    && CF_DNS_API_TOKEN in env && env[CF_DNS_API_TOKEN] == Strip(p.cfToken)
    && CLOUDFLARE_DNS_API_TOKEN in env && env[CLOUDFLARE_DNS_API_TOKEN] == Strip(p.cfToken)
  }

  ghost predicate UsersIn(env: Env, env': Env) {
    && (PGBOUNCER_USER !in env ==> PGBOUNCER_USER in env' && env'[PGBOUNCER_USER] == "pgbouncer")
    && (POSTGRES_APP_USER !in env ==> POSTGRES_APP_USER in env' && env'[POSTGRES_APP_USER] == "headscale")
  }

  lemma SettingsRead(env: Env, env': Env, p: Payload)
    requires SettingsIn(env, env', p)
    ensures OwnEdge(p) ==> EdgeSettingsIn(env', p)
    ensures UsersIn(env, env')
  {
    assert EdgeKey(ACME_EMAIL) && EdgeKey(CF_DNS_API_TOKEN) && EdgeKey(CLOUDFLARE_DNS_API_TOKEN);
    assert IsUser(PGBOUNCER_USER) && IsUser(POSTGRES_APP_USER);
  }

  lemma ProvisionedSettings(disks: seq<Disk>, ops: seq<Op>, outs: seq<Outcome>, n: nat)
    requires History(disks, ops, outs) && n < |ops| && outs[n].Done? && ops[n].Provision?
    ensures SettingsWritten(disks[n].env, disks[n + 1].env, ops[n].p)
  {
    assert StepAt(disks, ops, outs, n);
  }

  /** After a successful provision, unless an edge setting spans several lines, .env reads back the edge
      settings of a stack with its own edge, the default users where none were set, and every entry it
      had before except for passwords and those edge settings. */
  lemma ProvisionWritesSettings(disks: seq<Disk>, ops: seq<Op>, outs: seq<Outcome>, n: nat)
    requires History(disks, ops, outs) && n < |ops| && outs[n].Done? && ops[n].Provision?
    requires ops[n].p.production && !ops[n].p.sharedEdge ==> SingleLine(ops[n].p.acmeEmail) && SingleLine(ops[n].p.cfToken)
    ensures var p, env, env' := ops[n].p, ReadFile(disks[n].env), ReadFile(disks[n + 1].env);
            var own := p.production && !p.sharedEdge;
            && (own ==> EdgeSettingsIn(env', p)) && UsersIn(env, env')
            && forall k :: k in env && k != POSTGRES_PASSWORD && k != PGBOUNCER_PASSWORD && !(own && EdgeKey(k)) ==>
                 k in env' && env'[k] == env[k]
  {
    ProvisionedSettings(disks, ops, outs, n);
    SettingsRead(ReadFile(disks[n].env), ReadFile(disks[n + 1].env), ops[n].p);
  }

  lemma OneBlock(d: Disk, slugs: seq<string>, slug: string)
    requires COMPOSE in d.files && d.files[COMPOSE].Services? && d.files[COMPOSE].blocks == Blocks(d.dirs, slugs)
    ensures HasBlock(d, slug) <==> slug in slugs && HasSnippet(d.dirs, slug)
  {
    if slug in slugs && HasSnippet(d.dirs, slug) {
      BlocksAreSnippets(d.dirs, slugs, TenantBlock(slug, d.dirs[slug].snippet.value));
    }
    if HasBlock(d, slug) {
      var b :| b in d.files[COMPOSE].blocks && b.slug == slug;
      BlocksAreSnippets(d.dirs, slugs, b);
    }
  }

  /** Operation p was the last success on this tenant, a provision. */
  ghost predicate LastProvisioned(ops: seq<Op>, outs: seq<Outcome>, slug: string, p: int)
    requires |ops| == |outs|
  {
    && 0 <= p < |ops| && ops[p].Provision? && ops[p].Slug() == slug && outs[p].Done?
    && forall i :: p < i < |ops| && ops[i].Slug() == slug ==> !outs[i].Done?
  }

  /** A removal of this tenant was tried and failed after its last successful provision. */
  ghost predicate RemovalFailedSince(ops: seq<Op>, outs: seq<Outcome>, slug: string)
    requires |ops| == |outs|
  {
    exists p, k :: LastProvisioned(ops, outs, slug, p) && p < k < |ops|
                   && ops[k].Deprovision? && ops[k].slug == slug && !outs[k].Done?
  }

  lemma {:induction false} ProvisionedOnce(ops: seq<Op>, outs: seq<Outcome>, slug: string) returns (p: int)
    requires |ops| == |outs| && ModeOf(ops, outs, slug).Some?
    ensures LastProvisioned(ops, outs, slug, p)
  {
    var n := |ops| - 1;
    if outs[n].Done? && ops[n].Slug() == slug {
      p := n;
    } else {
      p := ProvisionedOnce(ops[..n], outs[..n], slug);
    }
  }

  lemma RemovalStaysFailed(ops: seq<Op>, outs: seq<Outcome>, slug: string)
    requires |ops| == |outs| && ops != []
    requires var n := |ops| - 1;
             RemovalFailedSince(ops[..n], outs[..n], slug) && !(outs[n].Done? && ops[n].Slug() == slug)
    ensures RemovalFailedSince(ops, outs, slug)
  {
    var n := |ops| - 1;
    var p, k :| LastProvisioned(ops[..n], outs[..n], slug, p) && p < k < n
                && ops[..n][k].Deprovision? && ops[..n][k].slug == slug && !outs[..n][k].Done?;
    assert forall i :: 0 <= i < n ==> ops[..n][i] == ops[i] && outs[..n][i] == outs[i];
    assert LastProvisioned(ops, outs, slug, p);
  }

  /** One step takes away a saved tenant's snippet only as a failing removal of that tenant. */
  lemma SnippetStep(d: Disk, op: Op, outcome: Outcome, d': Disk, slug: string)
    requires Valid(d) && OpStep(d, op, outcome, d')
    requires slug in d'.State().tenants && !HasSnippet(d'.dirs, slug)
    ensures slug in d.State().tenants && !(outcome.Done? && op.Slug() == slug)
    ensures !HasSnippet(d.dirs, slug) || (op.Deprovision? && op.slug == slug && !outcome.Done?)
  {
    SavedStep(d, op, outcome, d', slug);
  }

  /** Starting without a state file: a saved tenant can lack its snippet, and so miss from the compose
      file, only if a removal of it failed after its last successful provision. */
  lemma {:induction false} SnippetsAreLostByFailedRemovals(disks: seq<Disk>, ops: seq<Op>, outs: seq<Outcome>, slug: string)
    requires History(disks, ops, outs) && disks[0].saved.None?
    requires slug in disks[|ops|].State().tenants && !HasSnippet(disks[|ops|].dirs, slug)
    ensures RemovalFailedSince(ops, outs, slug)
  {
    if ops != [] {
      var n := |ops| - 1;
      HistoryUpTo(disks, ops, outs, n);
      SavedStateFollowsHistory(disks[..n + 1], ops[..n], outs[..n]);
      assert StepAt(disks, ops, outs, n);
      SnippetStep(disks[n], ops[n], outs[n], disks[n + 1], slug);
      if !HasSnippet(disks[n].dirs, slug) {
        SnippetsAreLostByFailedRemovals(disks[..n + 1], ops[..n], outs[..n], slug);
        RemovalStaysFailed(ops, outs, slug);
      } else {
        SavedStateFollowsHistory(disks, ops, outs);
        assert slug in disks[|ops|].State().tenants <==> ModeOf(ops, outs, slug).Some?;
        var p := ProvisionedOnce(ops, outs, slug);
        assert p < n && ops[n].slug == slug;
      }
    }
  }

  /** So after every success the compose file has a block for each saved tenant, except those whose
      removal failed after their last successful provision. */
  lemma MissingBlocksMeanFailedRemovals(disks: seq<Disk>, ops: seq<Op>, outs: seq<Outcome>, n: nat, slug: string)
    requires History(disks, ops, outs) && disks[0].saved.None? && n < |ops| && outs[n].Done?
    requires ops[n].Provision? || disks[n].State().initialized
    requires slug in disks[n + 1].State().tenants
    ensures HasBlock(disks[n + 1], slug) || RemovalFailedSince(ops[..n + 1], outs[..n + 1], slug)
  {
    SuccessesGenerateWhatIsSaved(disks, ops, outs, n);
    HistoryUpTo(disks, ops, outs, n + 1);
    if !HasSnippet(disks[n + 1].dirs, slug) {
      SnippetsAreLostByFailedRemovals(disks[..n + 2], ops[..n + 1], outs[..n + 1], slug);
    }
  }

  /** The disk after an undisturbed provision. */
  ghost function AfterProvision(d: Disk, p: Payload, tokens: Tokens): Disk {
    var env := StackEnv(ReadFile(d.env), p, tokens);
    var dirs := d.dirs[p.slug := NewDir(d.dirs, p, tokens)];
    var s := Enlisted(d.State(), p);
    var postgres := Setting(env, POSTGRES_PASSWORD, "");
    var pgbouncer := Setting(env, PGBOUNCER_PASSWORD, "");
    var bundle := Bundle(p.production, p.sharedEdge, p.network, s.databases, env, postgres, pgbouncer,
                         Blocks(dirs, s.tenants));
    Disk(Some(s), Some(WriteEnv(env)), dirs, Installed(d.files, bundle))
  }

  lemma AfterProvisionEnv(d: Disk, p: Payload, tokens: Tokens)
    requires tokens.Hex()
    ensures var d' := AfterProvision(d, p, tokens); PasswordsReady(d'.env) && PasswordsKept(d.env, d'.env)
    ensures SettingsWritten(d.env, AfterProvision(d, p, tokens).env, p)
  {
    RewriteKeepsPasswords(d.env, p, tokens);
    RewriteWritesSettings(d.env, p, tokens);
  }

  ghost function NewDir(dirs: map<string, TenantDir>, p: Payload, tokens: Tokens): TenantDir {
    TenantDir(Some(WriteEnv(TenantSecrets(SecretsIn(dirs, p.slug), tokens))), Some(p.snippet))
  }

  lemma NewDirKeepsSecrets(dirs: map<string, TenantDir>, p: Payload, tokens: Tokens)
    requires tokens.Hex()
    ensures var dirs' := dirs[p.slug := NewDir(dirs, p, tokens)];
            TenantKept(dirs, dirs', p.slug) && TenantReady(dirs', p.slug, p.snippet)
  {
    ReadFileIsWellFormed(if p.slug in dirs then dirs[p.slug].secrets else None);
    TenantSecretsSurviveWrite(SecretsIn(dirs, p.slug), tokens);
    var dirs' := dirs[p.slug := NewDir(dirs, p, tokens)];
    assert SecretsIn(dirs', p.slug) == ReadEnv(WriteEnv(TenantSecrets(SecretsIn(dirs, p.slug), tokens)));
  }

  lemma AfterProvisionFiles(d: Disk, p: Payload, tokens: Tokens)
    requires tokens.Hex()
    ensures var d' := AfterProvision(d, p, tokens); Generated(d', d'.State(), p.network) && MatchesEnv(d')
  {
    RewriteKeepsPasswords(d.env, p, tokens);
    var d' := AfterProvision(d, p, tokens);
    var env := StackEnv(ReadFile(d.env), p, tokens);
    var postgres := Setting(env, POSTGRES_PASSWORD, "");
    var pgbouncer := Setting(env, PGBOUNCER_PASSWORD, "");
    InstalledBundle(d.files, p.production, p.sharedEdge, p.network, d'.State().databases, env, postgres, pgbouncer,
                    Blocks(d'.dirs, d'.State().tenants));
  }

  /** A provision that is not refused can succeed. */
  lemma ProvisionMaySucceed(d: Disk, p: Payload, tokens: Tokens) returns (d': Disk)
    requires !Refused(d, p) && tokens.Hex()
    ensures Provisioned(d, d', p, Done)
  {
    AfterProvisionEnv(d, p, tokens);
    NewDirKeepsSecrets(d.dirs, p, tokens);
    AfterProvisionFiles(d, p, tokens);
    d' := AfterProvision(d, p, tokens);
  }

  lemma EnlistedTenants(s: Saved, p: Payload, slug: string)
    ensures slug in Enlisted(s, p).tenants <==> slug in s.tenants || slug == p.slug
  {
    assert slug in Elements(Enlisted(s, p).tenants) <==> slug in Elements(s.tenants) + {p.slug};
  }

  const FIRST := Payload("a", "hs_a", false, false, "", "", "", "services of a")

  const SECOND := Payload("b", "hs_b", false, false, "", "", "", "services of b")

  lemma NamesAreValid()
    ensures ValidDbName("hs_a") && ValidDbName("hs_b")
  {
  }

  lemma OneLink(disks: seq<Disk>, ops: seq<Op>, outs: seq<Outcome>, i: nat, d: Disk, op: Op, outcome: Outcome, d': Disk)
    requires |disks| == |ops| + 1 && |outs| == |ops| && i < |ops|
    requires disks[i] == d && ops[i] == op && outs[i] == outcome && disks[i + 1] == d'
    requires OpStep(d, op, outcome, d')
    ensures StepAt(disks, ops, outs, i)
  {
  }

  /** A history goes on with one more operation. */
  lemma OneMoreOp(disks: seq<Disk>, ops: seq<Op>, outs: seq<Outcome>, last: Disk, op: Op, outcome: Outcome, d: Disk)
    requires History(disks, ops, outs) && disks[|ops|] == last && OpStep(last, op, outcome, d)
    ensures History(disks + [d], ops + [op], outs + [outcome])
  {
    var ds, os, rs := disks + [d], ops + [op], outs + [outcome];
    OneLink(ds, os, rs, |ops|, last, op, outcome, d);
    forall i: nat | i < |ops| ensures StepAt(ds, os, rs, i) {
      OldLink(disks, ops, outs, op, outcome, d, i);
    }
  }

  lemma OldLink(disks: seq<Disk>, ops: seq<Op>, outs: seq<Outcome>, op: Op, outcome: Outcome, d: Disk, i: nat)
    requires History(disks, ops, outs) && i < |ops|
    ensures StepAt(disks + [d], ops + [op], outs + [outcome], i)
  {
    assert StepAt(disks, ops, outs, i);
    OneLink(disks + [d], ops + [op], outs + [outcome], i, disks[i], ops[i], outs[i], disks[i + 1]);
  }

  /** Removing a tenant may fail on the first generated file, after its directory is gone. */
  lemma RemovalMayFailHalfway(d: Disk, slug: string, dbName: string, network: string)
    requires ValidDbName(dbName)
    ensures OpStep(d, Deprovision(slug, dbName, network), Raised, d.(dirs := d.dirs - {slug}))
  {
  }

  const EMPTY_DIRECTORY := Disk(None, None, map[], map[])

  const REMOVAL := Deprovision("a", "hs_a", "")

  lemma FirstIsProvisioned(tokens: Tokens) returns (d: Disk)
    requires tokens.Hex()
    ensures History([EMPTY_DIRECTORY, d], [Provision(FIRST)], [Done]) && "a" in d.State().tenants && !d.State().production
  {
    NamesAreValid();
    d := ProvisionMaySucceed(EMPTY_DIRECTORY, FIRST, tokens);
    EnlistedTenants(EMPTY_DIRECTORY.State(), FIRST, "a");
    OneLink([EMPTY_DIRECTORY, d], [Provision(FIRST)], [Done], 0, EMPTY_DIRECTORY, Provision(FIRST), Done, d);
  }

  lemma ThenRemovalFails(disks: seq<Disk>, ops: seq<Op>, outs: seq<Outcome>, last: Disk)
    requires History(disks, ops, outs) && disks[|ops|] == last
    ensures History(disks + [last.(dirs := last.dirs - {"a"})], ops + [REMOVAL], outs + [Raised])
  {
    NamesAreValid();
    RemovalMayFailHalfway(last, "a", "hs_a", "");
    OneMoreOp(disks, ops, outs, last, REMOVAL, Raised, last.(dirs := last.dirs - {"a"}));
  }

  lemma ThenSecondIsProvisioned(disks: seq<Disk>, ops: seq<Op>, outs: seq<Outcome>, last: Disk, tokens: Tokens) returns (d: Disk)
    requires History(disks, ops, outs) && disks[|ops|] == last && tokens.Hex()
    requires !last.State().production && "a" in last.State().tenants && "a" !in last.dirs
    ensures History(disks + [d], ops + [Provision(SECOND)], outs + [Done])
    ensures "a" in d.State().tenants && !HasSnippet(d.dirs, "a") && "b" in d.State().tenants && HasSnippet(d.dirs, "b")
  {
    NamesAreValid();
    d := ProvisionMaySucceed(last, SECOND, tokens);
    EnlistedTenants(last.State(), SECOND, "a");
    EnlistedTenants(last.State(), SECOND, "b");
    OneMoreOp(disks, ops, outs, last, Provision(SECOND), Done, d);
  }

  /** Three operations after which a saved tenant has no block: a is provisioned, removing it fails
      halfway, and b is provisioned. */
  lemma LostBlockExample(tokens: Tokens) returns (disks: seq<Disk>, ops: seq<Op>, outs: seq<Outcome>)
    requires tokens.Hex()
    ensures History(disks, ops, outs) && disks[0] == Disk(None, None, map[], map[])
    ensures |ops| == 3 && ops[0] == Provision(FIRST) && ops[1] == Deprovision("a", "hs_a", "") && ops[2] == Provision(SECOND)
    ensures outs[0].Done? && outs[1].Raised? && outs[2].Done?
    ensures "a" in disks[3].State().tenants && !HasBlock(disks[3], "a") && HasBlock(disks[3], "b")
  {
    var d1 := FirstIsProvisioned(tokens);
    var d2 := d1.(dirs := d1.dirs - {"a"});
    disks, ops, outs := [EMPTY_DIRECTORY, d1], [Provision(FIRST)], [Done];
    ThenRemovalFails(disks, ops, outs, d1);
    disks, ops, outs := disks + [d2], ops + [REMOVAL], outs + [Raised];
    var d3 := ThenSecondIsProvisioned(disks, ops, outs, d2, tokens);
    disks, ops, outs := disks + [d3], ops + [Provision(SECOND)], outs + [Done];
    SuccessesGenerateWhatIsSaved(disks, ops, outs, 2);
  }

  /** Once a stack password is established, no later provision or deprovision changes it. */
  lemma {:induction false} PasswordsNeverChange(disks: seq<Disk>, ops: seq<Op>, outs: seq<Outcome>, i: nat, j: nat, key: string)
    requires History(disks, ops, outs) && i <= j < |disks|
    requires IsPassword(key)
    requires Established(ReadFile(disks[i].env), key)
    ensures Established(ReadFile(disks[j].env), key)
    ensures ReadFile(disks[j].env)[key] == ReadFile(disks[i].env)[key]
  {
    if i < j {
      PasswordsNeverChange(disks, ops, outs, i, j - 1, key);
      assert StepAt(disks, ops, outs, j - 1);
    }
  }

  lemma SecretStep(d: Disk, op: Op, outcome: Outcome, d': Disk, slug: string, key: string)
    requires OpStep(d, op, outcome, d') && IsTenantSecret(key)
    requires slug in d.dirs && slug in d'.dirs && Established(SecretsIn(d.dirs, slug), key)
    ensures Established(SecretsIn(d'.dirs, slug), key)
    ensures SecretsIn(d'.dirs, slug)[key] == SecretsIn(d.dirs, slug)[key]
  {
    if op.Provision? {
      assert TenantKept(d.dirs, d'.dirs, op.p.slug);
      assert slug != op.p.slug ==> d'.dirs[slug] == d.dirs[slug];
    } else {
      assert d'.dirs[slug] == d.dirs[slug];
    }
  }

  /** A tenant's secrets stay the same until its directory is removed. */
  lemma {:induction false} TenantSecretsKept(disks: seq<Disk>, ops: seq<Op>, outs: seq<Outcome>, i: nat, j: nat,
                                             slug: string, key: string)
    requires History(disks, ops, outs) && i <= j < |disks|
    requires IsTenantSecret(key)
    requires forall k :: i <= k <= j ==> slug in disks[k].dirs
    requires Established(SecretsIn(disks[i].dirs, slug), key)
    ensures Established(SecretsIn(disks[j].dirs, slug), key)
    ensures SecretsIn(disks[j].dirs, slug)[key] == SecretsIn(disks[i].dirs, slug)[key]
  {
    if i < j {
      TenantSecretsKept(disks, ops, outs, i, j - 1, slug, key);
      assert StepAt(disks, ops, outs, j - 1);
      SecretStep(disks[j - 1], ops[j - 1], outs[j - 1], disks[j], slug, key);
    }
  }
}
