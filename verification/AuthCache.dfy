/**
 The daemon's auth configuration and the cache in front of it
 (apps/daemon-rs/src/daemon_config.rs:186-288). Other processes write the three files at any time,
 also between the file operations of one call; each write gives the file a stamp never used before.
 */
module AuthCache {
  import opened Sequences

  // ---------------------------------------------------------------- the answer without a cache

  datatype Role = Viewer | Operator | Owner

  datatype AuthSection = AuthSection(password: Option<string>, trustLan: Option<bool>, claimMode: Option<bool>)

  datatype Daemon = Daemon(auth: Option<AuthSection>, trustLan: Option<bool>)

  datatype Credential = Credential(sha256: string, role: Option<Role>)

  datatype Principals = Principals(claimedAt: Option<string>, credentials: seq<seq<Credential>>)

  datatype Device = Device(sha256: string, role: Role)

  datatype AuthConfig = AuthConfig(
    passwordHash: Option<string>,
    devices: seq<Device>,
    claimed: bool,
    localToken: Option<string>,
    trustLan: bool,
    claimMode: bool)

  /** What reading each file gives; nothing when it is missing or cannot be parsed. */
  datatype Contents = Contents(config: Option<Daemon>, principals: Option<Principals>, token: Option<string>)

  /** The whitespace of the Unicode `White_Space` property. */
  predicate IsWhitespace(c: char) {
    || '\U{9}' <= c <= '\U{D}' || c == ' ' || c == '\U{85}' || c == '\U{A0}' || c == '\U{1680}'
    || '\U{2000}' <= c <= '\U{200A}' || c == '\U{2028}' || c == '\U{2029}' || c == '\U{202F}'
    || c == '\U{205F}' || c == '\U{3000}'
  }

  predicate Trimmed(s: string) {
    s != [] ==> !IsWhitespace(s[0]) && !IsWhitespace(s[|s| - 1])
  }

  function TrimEnd(s: string): string {
    if s != [] && IsWhitespace(s[|s| - 1]) then TrimEnd(s[..|s| - 1]) else s
  }

  function Trim(s: string): string {
    if s != [] && IsWhitespace(s[0]) then Trim(s[1..]) else TrimEnd(s)
  }

  predicate AllWhitespace(s: string) {
    forall i :: 0 <= i < |s| ==> IsWhitespace(s[i])
  }

  lemma {:induction false} TrimEndCuts(s: string) returns (after: string)
    ensures s == TrimEnd(s) + after && AllWhitespace(after)
    ensures TrimEnd(s) != [] ==> !IsWhitespace(TrimEnd(s)[|TrimEnd(s)| - 1])
  {
    if s != [] && IsWhitespace(s[|s| - 1]) {
      after := TrimEndCuts(s[..|s| - 1]);
      assert s == s[..|s| - 1] + [s[|s| - 1]];
      after := after + [s[|s| - 1]];
    } else {
      after := [];
    }
  }

  /** Trimming cuts whitespace off both ends and leaves none there. */
  lemma {:induction false} TrimCuts(s: string) returns (before: string, after: string)
    ensures s == before + Trim(s) + after && AllWhitespace(before) && AllWhitespace(after) && Trimmed(Trim(s))
  {
    if s != [] && IsWhitespace(s[0]) {
      before, after := TrimCuts(s[1..]);
      assert s == [s[0]] + s[1..];
      before := [s[0]] + before;
    } else {
      before := [];
      after := TrimEndCuts(s);
      if TrimEnd(s) != [] {
        assert TrimEnd(s)[0] == s[0];
      }
    }
  }

  function DeviceOf(c: Credential): Device {
    Device(c.sha256, if c.role.Some? then c.role.value else Owner)
  }

  function Devices(credentials: seq<seq<Credential>>): (r: seq<Device>)
    ensures |r| == |Flatten(credentials)|
    ensures forall i :: 0 <= i < |r| ==> r[i] == DeviceOf(Flatten(credentials)[i])
  {
    if credentials == [] then []
    else DevicesOf(credentials[0]) + Devices(credentials[1..])
  }

  function DevicesOf(credentials: seq<Credential>): (r: seq<Device>)
    ensures |r| == |credentials| && forall i :: 0 <= i < |r| ==> r[i] == DeviceOf(credentials[i])
  {
    if credentials == [] then [] else [DeviceOf(credentials[0])] + DevicesOf(credentials[1..])
  }

  function OrElse<T>(first: Option<T>, second: Option<T>): Option<T> {
    if first.Some? then first else second
  }

  /** What is fixed while the daemon runs: the hash of the password in its environment, and the brand's
      default for trusting the LAN. */
  datatype Settings = Settings(envPassword: Option<string>, defaultTrustLan: bool)

  function BuildAuth(settings: Settings, c: Contents): AuthConfig {
    var daemon := if c.config.Some? then c.config.value else Daemon(None, None);
    var section := if daemon.auth.Some? then daemon.auth.value else AuthSection(None, None, None);
    var principals := if c.principals.Some? then c.principals.value else Principals(None, []);
    var token := if c.token.Some? then Trim(c.token.value) else [];
    var trustLan := OrElse(section.trustLan, daemon.trustLan);
    AuthConfig(
      OrElse(settings.envPassword, section.password),
      Devices(principals.credentials),
      principals.claimedAt.Some?,
      if token == [] then None else Some(token),
      if trustLan.Some? then trustLan.value else settings.defaultTrustLan,
      if section.claimMode.Some? then section.claimMode.value else false)
  }

  /** The local token is what the file holds between its outer whitespace, and there is none exactly when
      the file is missing or holds nothing else. */
  lemma TokenIsTrimmed(settings: Settings, c: Contents)
    ensures var r := BuildAuth(settings, c).localToken;
            && (r.None? <==> c.token.None? || AllWhitespace(c.token.value))
            && (r.Some? ==> r.value != [] && Trimmed(r.value) && r.value == Trim(c.token.value))
  {
    if c.token.Some? {
      var text := c.token.value;
      var before, after := TrimCuts(text);
      if Trim(text) != [] {
        assert text[|before|] == Trim(text)[0];
      } else {
        assert text == before + after;
      }
    }
  }

  // ---------------------------------------------------------------- the files

  datatype File<T> = Missing | Present(stamp: nat, data: Option<T>)

  datatype Files = Files(config: File<Daemon>, principals: File<Principals>, token: File<string>, clock: nat)

  datatype Write =
    | WriteConfig(config: Option<Daemon>)
    | WritePrincipals(principals: Option<Principals>)
    | WriteToken(token: Option<string>)
    | DeleteConfig
    | DeletePrincipals
    | DeleteToken

  predicate Deletes(w: Write) {
    w.DeleteConfig? || w.DeletePrincipals? || w.DeleteToken?
  }

  function ApplyOne(f: Files, w: Write): Files {
    match w
    case WriteConfig(c) => f.(config := Present(f.clock, c), clock := f.clock + 1)
    case WritePrincipals(p) => f.(principals := Present(f.clock, p), clock := f.clock + 1)
    case WriteToken(t) => f.(token := Present(f.clock, t), clock := f.clock + 1)
    case DeleteConfig => f.(config := Missing)
    case DeletePrincipals => f.(principals := Missing)
    case DeleteToken => f.(token := Missing)
  }

  function Apply(f: Files, writes: seq<Write>): Files
    decreases |writes|
  {
    if writes == [] then f else Apply(ApplyOne(f, writes[0]), writes[1..])
  }

  function StampOf<T>(f: File<T>): Option<nat> {
    if f.Missing? then None else Some(f.stamp)
  }

  function Reading<T>(f: File<T>): Option<T> {
    if f.Missing? then None else f.data
  }

  function ContentsOf(f: Files): Contents {
    Contents(Reading(f.config), Reading(f.principals), Reading(f.token))
  }

  datatype Stamps = Stamps(config: Option<nat>, principals: Option<nat>, token: Option<nat>)

  function StampsOf(f: Files): Stamps {
    Stamps(StampOf(f.config), StampOf(f.principals), StampOf(f.token))
  }

  /** What each field of an answer is, from the files themselves. */
  ghost predicate Answers(settings: Settings, f: Files, r: AuthConfig) {
    var principals := if f.principals.Present? then f.principals.data else None;
    var token := if f.token.Present? then f.token.data else None;
    && (r.claimed <==> principals.Some? && principals.value.claimedAt.Some?)
    && SameDevices(r.devices, if principals.Some? then Flatten(principals.value.credentials) else [])
    && AnswersConfig(settings, if f.config.Present? then f.config.data else None, r)
    && AnswersToken(token, r.localToken)
  }

  ghost predicate AnswersConfig(settings: Settings, config: Option<Daemon>, r: AuthConfig) {
    var section := if config.Some? then config.value.auth else None;
    && (settings.envPassword.Some? ==> r.passwordHash == settings.envPassword)
    && (settings.envPassword.None? ==> r.passwordHash == if section.Some? then section.value.password else None)
    && (section.Some? && section.value.trustLan.Some? ==> Some(r.trustLan) == section.value.trustLan)
    && (section.None? || section.value.trustLan.None? ==>
          r.trustLan == if config.Some? && config.value.trustLan.Some? then config.value.trustLan.value else settings.defaultTrustLan)
    && (r.claimMode <==> section.Some? && section.value.claimMode == Some(true))
  }

  /** The file's text between its outer whitespace, unless that is nothing. */
  ghost predicate AnswersToken(token: Option<string>, answer: Option<string>) {
    && (answer.None? <==> token.None? || AllWhitespace(token.value))
    && (answer.Some? ==>
          && answer.value != [] && Trimmed(answer.value)
          && exists before, after :: token.value == before + answer.value + after && AllWhitespace(before) && AllWhitespace(after))
  }

  /** One device per credential, in order; no role reads as owner. */
  ghost predicate SameDevices(devices: seq<Device>, credentials: seq<Credential>) {
    && |devices| == |credentials|
    && forall i :: 0 <= i < |devices| ==>
         && devices[i].sha256 == credentials[i].sha256
         && (credentials[i].role.None? ==> devices[i].role.Owner?)
         && (credentials[i].role.Some? ==> devices[i].role == credentials[i].role.value)
  }

  /** `build_auth` answers from the files, field by field. */
  lemma FieldsOfTheFiles(settings: Settings, f: Files)
    ensures Answers(settings, f, BuildAuth(settings, ContentsOf(f)))
  {
    hide Trim, AnswersToken, Devices, Flatten, SameDevices;
    var c := ContentsOf(f);
    TokenAnswers(settings, c);
    DevicesAnswer(if c.principals.Some? then c.principals.value.credentials else []);
  }

  lemma TokenAnswers(settings: Settings, c: Contents)
    ensures AnswersToken(c.token, BuildAuth(settings, c).localToken)
  {
    hide Trim, AllWhitespace, Trimmed, Devices;
    TokenIsTrimmed(settings, c);
    if c.token.Some? {
      var before, after := TrimCuts(c.token.value);
    }
  }

  lemma DevicesAnswer(credentials: seq<seq<Credential>>)
    ensures SameDevices(Devices(credentials), Flatten(credentials))
    ensures Flatten<Credential>([]) == []
  {
    hide Devices;
  }

  // ---------------------------------------------------------------- one call

  /** The five places where writes can fall inside a call: between the three stamps and the three reads. */
  type Gaps = g: seq<seq<Write>> | |g| == 5 witness [[], [], [], [], []]

  /** The files at the k-th file operation of a call. */
  function Moment(f: Files, gaps: Gaps, k: nat): Files
    requires k <= 5
  {
    if k == 0 then f else Apply(Moment(f, gaps, k - 1), gaps[k - 1])
  }

  /** The cache, with the contents its config was built from. */
  datatype Cache = Cache(stamps: Stamps, config: AuthConfig, seen: Contents)

  /** The stamps as a call samples them. */
  function Sampled(f: Files, gaps: Gaps): Stamps {
    Stamps(StampOf(Moment(f, gaps, 0).config), StampOf(Moment(f, gaps, 1).principals), StampOf(Moment(f, gaps, 2).token))
  }

  function ReadIn(f: Files, gaps: Gaps): Contents {
    Contents(Reading(Moment(f, gaps, 3).config), Reading(Moment(f, gaps, 4).principals), Reading(Moment(f, gaps, 5).token))
  }

  predicate Reloads(cache: Cache, f: Files, gaps: Gaps) {
    Sampled(f, gaps) != cache.stamps
  }

  function CacheAfter(settings: Settings, cache: Cache, f: Files, gaps: Gaps): Cache {
    if Reloads(cache, f, gaps)
    then Cache(Sampled(f, gaps), BuildAuth(settings, ReadIn(f, gaps)), ReadIn(f, gaps))
    else cache
  }

  /** A call that finds its stamps unchanged ends after the third of them. */
  function FilesAfter(cache: Cache, f: Files, gaps: Gaps): Files {
    if Reloads(cache, f, gaps) then Moment(f, gaps, 5) else Moment(f, gaps, 2)
  }

  // ---------------------------------------------------------------- what the cache knows

  /** A cached stamp names one version of the file, and the cached reading is that version's. */
  ghost predicate Linked<T>(stamp: Option<nat>, seen: Option<T>, f: File<T>, clock: nat) {
    && (stamp.Some? ==> stamp.value < clock)
    && (stamp.Some? && StampOf(f) == stamp ==> seen == f.data)
  }

  /** The reading is of a version younger than the stamp: the file was created in between. */
  ghost predicate Newborn<T>(stamp: Option<nat>, seen: Option<T>) {
    stamp.None? && seen.Some?
  }

  ghost predicate NoNewborn(cache: Cache) {
    && !Newborn(cache.stamps.config, cache.seen.config)
    && !Newborn(cache.stamps.principals, cache.seen.principals)
    && !Newborn(cache.stamps.token, cache.seen.token)
  }

  ghost predicate StampsUsed(f: Files) {
    && (f.config.Present? ==> f.config.stamp < f.clock)
    && (f.principals.Present? ==> f.principals.stamp < f.clock)
    && (f.token.Present? ==> f.token.stamp < f.clock)
  }

  ghost predicate CacheInv(settings: Settings, cache: Cache, f: Files) {
    && StampsUsed(f)
    && cache.config == BuildAuth(settings, cache.seen)
    && Linked(cache.stamps.config, cache.seen.config, f.config, f.clock)
    && Linked(cache.stamps.principals, cache.seen.principals, f.principals, f.clock)
    && Linked(cache.stamps.token, cache.seen.token, f.token, f.clock)
  }

  /** Each link there was is still there. */
  ghost predicate KeepsLinks(stamps: Stamps, seen: Contents, f: Files, g: Files) {
    && StampsUsed(g) && f.clock <= g.clock
    && (Linked(stamps.config, seen.config, f.config, f.clock) ==>
          Linked(stamps.config, seen.config, g.config, g.clock))
    && (Linked(stamps.principals, seen.principals, f.principals, f.clock) ==>
          Linked(stamps.principals, seen.principals, g.principals, g.clock))
    && (Linked(stamps.token, seen.token, f.token, f.clock) ==>
          Linked(stamps.token, seen.token, g.token, g.clock))
  }

  lemma ApplyOneKeepsLinks(stamps: Stamps, seen: Contents, f: Files, w: Write)
    requires StampsUsed(f)
    ensures KeepsLinks(stamps, seen, f, ApplyOne(f, w))
  {
  }

  lemma {:induction false} ApplyKeepsLinks(stamps: Stamps, seen: Contents, f: Files, writes: seq<Write>)
    requires StampsUsed(f)
    ensures KeepsLinks(stamps, seen, f, Apply(f, writes))
    decreases |writes|
  {
    hide Linked, ApplyOne;
    if writes == [] {
    } else {
      ApplyOneKeepsLinks(stamps, seen, f, writes[0]);
      ApplyKeepsLinks(stamps, seen, ApplyOne(f, writes[0]), writes[1..]);
    }
  }

  lemma ApplyKeeps(settings: Settings, cache: Cache, f: Files, writes: seq<Write>)
    requires CacheInv(settings, cache, f)
    ensures CacheInv(settings, cache, Apply(f, writes))
  {
    ApplyKeepsLinks(cache.stamps, cache.seen, f, writes);
  }

  /** Whatever a call samples and then reads is linked, because it samples first. */
  lemma ReloadLinks(f: Files, gaps: Gaps)
    requires StampsUsed(f)
    ensures var stamps, seen, g := Sampled(f, gaps), ReadIn(f, gaps), Moment(f, gaps, 5);
            && StampsUsed(g)
            && Linked(stamps.config, seen.config, g.config, g.clock)
            && Linked(stamps.principals, seen.principals, g.principals, g.clock)
            && Linked(stamps.token, seen.token, g.token, g.clock)
  {
    var stamps, seen := Sampled(f, gaps), ReadIn(f, gaps);
    hide Apply;
    var m1 := Moment(f, gaps, 1);
    var m2 := Moment(f, gaps, 2);
    var m3 := Moment(f, gaps, 3);
    var m4 := Moment(f, gaps, 4);
    ApplyKeepsLinks(stamps, seen, f, gaps[0]);
    ApplyKeepsLinks(stamps, seen, m1, gaps[1]);
    ApplyKeepsLinks(stamps, seen, m2, gaps[2]);
    ApplyKeepsLinks(stamps, seen, m3, gaps[3]);
    ApplyKeepsLinks(stamps, seen, m4, gaps[4]);
  }

  lemma CallKeeps(settings: Settings, cache: Cache, f: Files, gaps: Gaps)
    requires CacheInv(settings, cache, f)
    ensures CacheInv(settings, CacheAfter(settings, cache, f, gaps), FilesAfter(cache, f, gaps))
  {
    hide Apply, BuildAuth;
    if Reloads(cache, f, gaps) {
      ReloadLinks(f, gaps);
    } else {
      ApplyKeeps(settings, cache, f, gaps[0]);
      ApplyKeeps(settings, cache, Moment(f, gaps, 1), gaps[1]);
    }
  }

  // ---------------------------------------------------------------- runs

  datatype Event = Outside(writes: seq<Write>) | Call(gaps: Gaps)

  datatype State = State(cache: Cache, files: Files)

  function Step(settings: Settings, s: State, e: Event): State {
    match e
    case Outside(writes) => s.(files := Apply(s.files, writes))
    case Call(gaps) => State(CacheAfter(settings, s.cache, s.files, gaps), FilesAfter(s.cache, s.files, gaps))
  }

  function Play(settings: Settings, s: State, events: seq<Event>): State
    decreases |events|
  {
    if events == [] then s else Play(settings, Step(settings, s, events[0]), events[1..])
  }

  lemma {:induction false} PlayKeeps(settings: Settings, s: State, events: seq<Event>)
    requires CacheInv(settings, s.cache, s.files)
    ensures var t := Play(settings, s, events); CacheInv(settings, t.cache, t.files)
    decreases |events|
  {
    hide CacheInv, CacheAfter, FilesAfter, Apply;
    if events == [] {
    } else {
      match events[0] {
        case Outside(writes) => ApplyKeeps(settings, s.cache, s.files, writes);
        case Call(gaps) => CallKeeps(settings, s.cache, s.files, gaps);
      }
      PlayKeeps(settings, Step(settings, s, events[0]), events[1..]);
    }
  }

  /** Over every run, deletions included: when the cached stamps are the files' stamps, the cached
      readings are the files' contents exactly when no file that was missing when its stamp was
      taken had been created by the time it was read. */
  lemma CacheIsCoherentExactly(settings: Settings, s: State, events: seq<Event>)
    requires CacheInv(settings, s.cache, s.files)
    ensures var t := Play(settings, s, events);
            && t.cache.config == BuildAuth(settings, t.cache.seen)
            && (t.cache.stamps == StampsOf(t.files) ==> (t.cache.seen == ContentsOf(t.files) <==> NoNewborn(t.cache)))
  {
    PlayKeeps(settings, s, events);
    hide Play, BuildAuth;
  }

  // ---------------------------------------------------------------- without deletions

  predicate Replaces(writes: seq<Write>) {
    forall i :: 0 <= i < |writes| ==> !Deletes(writes[i])
  }

  predicate ReplacesThroughout(e: Event) {
    if e.Outside? then Replaces(e.writes) else forall k :: 0 <= k < 5 ==> Replaces(e.gaps[k])
  }

  /** A file that is still missing was missing when it was read. */
  ghost predicate StillMissing(stamps: Stamps, seen: Contents, f: Files) {
    && (f.config.Missing? ==> !Newborn(stamps.config, seen.config))
    && (f.principals.Missing? ==> !Newborn(stamps.principals, seen.principals))
    && (f.token.Missing? ==> !Newborn(stamps.token, seen.token))
  }

  ghost predicate NoneVanishes(f: Files, g: Files) {
    && (g.config.Missing? ==> f.config.Missing?)
    && (g.principals.Missing? ==> f.principals.Missing?)
    && (g.token.Missing? ==> f.token.Missing?)
  }

  lemma {:induction false} ReplacingVanishesNone(f: Files, writes: seq<Write>)
    requires Replaces(writes)
    ensures NoneVanishes(f, Apply(f, writes))
    decreases |writes|
  {
    if writes == [] {
    } else {
      assert !Deletes(writes[0]);
      ReplacingVanishesNone(ApplyOne(f, writes[0]), writes[1..]);
    }
  }

  lemma CallKeepsMissing(settings: Settings, cache: Cache, f: Files, gaps: Gaps)
    requires StillMissing(cache.stamps, cache.seen, f) && ReplacesThroughout(Call(gaps))
    ensures var c := CacheAfter(settings, cache, f, gaps); StillMissing(c.stamps, c.seen, FilesAfter(cache, f, gaps))
  {
    hide Apply, BuildAuth;
    var e := Call(gaps);
    assert Replaces(e.gaps[0]) && Replaces(e.gaps[1]) && Replaces(e.gaps[2]) && Replaces(e.gaps[3]) && Replaces(e.gaps[4]);
    ReplacingVanishesNone(f, gaps[0]);
    ReplacingVanishesNone(Moment(f, gaps, 1), gaps[1]);
    ReplacingVanishesNone(Moment(f, gaps, 2), gaps[2]);
    ReplacingVanishesNone(Moment(f, gaps, 3), gaps[3]);
    ReplacingVanishesNone(Moment(f, gaps, 4), gaps[4]);
  }

  lemma {:induction false} PlayKeepsMissing(settings: Settings, s: State, events: seq<Event>)
    requires StillMissing(s.cache.stamps, s.cache.seen, s.files)
    requires forall i :: 0 <= i < |events| ==> ReplacesThroughout(events[i])
    ensures var t := Play(settings, s, events); StillMissing(t.cache.stamps, t.cache.seen, t.files)
    decreases |events|
  {
    hide CacheAfter, FilesAfter, Apply;
    if events == [] {
    } else {
      assert ReplacesThroughout(events[0]);
      match events[0] {
        case Outside(writes) => ReplacingVanishesNone(s.files, writes);
        case Call(gaps) => CallKeepsMissing(settings, s.cache, s.files, gaps);
      }
      PlayKeepsMissing(settings, Step(settings, s, events[0]), events[1..]);
    }
  }

  /** Where files are replaced and never deleted, over every run and with writes falling anywhere inside
      the calls: whenever the cached stamps are the files' stamps, the cached config is the one
      `build_auth` gives for the present files; so a call that no write overlaps returns that. */
  lemma CacheIsCoherent(settings: Settings, s: State, events: seq<Event>)
    requires CacheInv(settings, s.cache, s.files) && StillMissing(s.cache.stamps, s.cache.seen, s.files)
    requires forall i :: 0 <= i < |events| ==> ReplacesThroughout(events[i])
    ensures var t := Play(settings, s, events);
            && (t.cache.stamps == StampsOf(t.files) ==> t.cache.config == BuildAuth(settings, ContentsOf(t.files)))
            && CacheAfter(settings, t.cache, t.files, UNDISTURBED).config == BuildAuth(settings, ContentsOf(t.files))
            && Answers(settings, t.files, CacheAfter(settings, t.cache, t.files, UNDISTURBED).config)
  {
    var t := Play(settings, s, events);
    FieldsOfTheFiles(settings, t.files);
    PlayKeeps(settings, s, events);
    PlayKeepsMissing(settings, s, events);
    UndisturbedMoments(t.files);
    hide Play, BuildAuth, Moment, Answers;
  }

  const UNDISTURBED: Gaps := [[], [], [], [], []]

  lemma UndisturbedMoments(f: Files)
    ensures forall k :: 0 <= k <= 5 ==> Moment(f, UNDISTURBED, k) == f
  {
    assert Apply(f, []) == f;
    assert Moment(f, UNDISTURBED, 1) == f;
    assert Moment(f, UNDISTURBED, 2) == f;
    assert Moment(f, UNDISTURBED, 3) == f;
    assert Moment(f, UNDISTURBED, 4) == f;
  }

  /** Even a call that writes overlap answers, file by file, from contents the file had during that
      very call: at its stamps if they match the cache, and else at its reads. */
  lemma AnswerIsRecent(settings: Settings, cache: Cache, f: Files, gaps: Gaps)
    requires CacheInv(settings, cache, f) && StillMissing(cache.stamps, cache.seen, f) && ReplacesThroughout(Call(gaps))
    ensures var k := if Reloads(cache, f, gaps) then 3 else 0;
            CacheAfter(settings, cache, f, gaps).config ==
            BuildAuth(settings, Contents(Reading(Moment(f, gaps, k).config), Reading(Moment(f, gaps, k + 1).principals),
                                         Reading(Moment(f, gaps, k + 2).token)))
  {
    hide Apply, BuildAuth;
    var m1 := Moment(f, gaps, 1);
    var m2 := Moment(f, gaps, 2);
    assert Moment(f, gaps, 0) == f && m1 == Apply(f, gaps[0]) && m2 == Apply(m1, gaps[1]);
    var e := Call(gaps);
    assert Replaces(e.gaps[0]) && Replaces(e.gaps[1]);
    ApplyKeeps(settings, cache, f, gaps[0]);
    ApplyKeeps(settings, cache, m1, gaps[1]);
    ReplacingVanishesNone(f, gaps[0]);
    ReplacingVanishesNone(m1, gaps[1]);
  }

  // ---------------------------------------------------------------- starting up

  /** The config `load` built from the files, and the stamps `new` takes once `gap` has happened. */
  function Started(settings: Settings, loaded: Files, gap: seq<Write>): State {
    var now := Apply(loaded, gap);
    State(Cache(StampsOf(now), BuildAuth(settings, ContentsOf(loaded)), ContentsOf(loaded)), now)
  }

  /** A store whose load and stamps no write separates starts coherent. */
  lemma StartsCoherent(settings: Settings, loaded: Files)
    requires StampsUsed(loaded)
    ensures var s := Started(settings, loaded, []);
            CacheInv(settings, s.cache, s.files) && StillMissing(s.cache.stamps, s.cache.seen, s.files)
  {
  }

  /** Writes between the two: the cache keeps answering from the replaced contents for as long as nothing
      else is written. */
  lemma {:induction false} GapIsNeverNoticed(settings: Settings, loaded: Files, gap: seq<Write>, calls: nat)
    ensures var s := Started(settings, loaded, gap);
            Play(settings, s, Repeated(calls)) == s && s.cache.config == BuildAuth(settings, ContentsOf(loaded))
  {
    var s := Started(settings, loaded, gap);
    if calls == 0 {
    } else {
      UndisturbedMoments(s.files);
      hide Apply, BuildAuth;
      assert Step(settings, s, Call(UNDISTURBED)) == s;
      assert Repeated(calls)[1..] == Repeated(calls - 1);
      GapIsNeverNoticed(settings, loaded, gap, calls - 1);
    }
  }

  function Repeated(calls: nat): seq<Event> {
    if calls == 0 then [] else [Call(UNDISTURBED)] + Repeated(calls - 1)
  }

  // ---------------------------------------------------------------- recovering

  /** Does some call of the run find a stamp changed? */
  ghost predicate HasReloaded(settings: Settings, s: State, events: seq<Event>)
    decreases |events|
  {
    events != [] &&
    ((events[0].Call? && Reloads(s.cache, s.files, events[0].gaps)) ||
     HasReloaded(settings, Step(settings, s, events[0]), events[1..]))
  }

  lemma ReloadRestores(settings: Settings, s: State, gaps: Gaps)
    requires StampsUsed(s.files) && Reloads(s.cache, s.files, gaps)
    ensures var t := Step(settings, s, Call(gaps));
            && CacheInv(settings, t.cache, t.files)
            && (ReplacesThroughout(Call(gaps)) ==> StillMissing(t.cache.stamps, t.cache.seen, t.files))
  {
    hide Apply, BuildAuth;
    ReloadLinks(s.files, gaps);
    if ReplacesThroughout(Call(gaps)) {
      ReloadSeesMissing(s.files, gaps);
    }
  }

  lemma ReloadSeesMissing(f: Files, gaps: Gaps)
    requires ReplacesThroughout(Call(gaps))
    ensures StillMissing(Sampled(f, gaps), ReadIn(f, gaps), Moment(f, gaps, 5))
  {
    hide Apply;
    var e := Call(gaps);
    assert Replaces(e.gaps[3]) && Replaces(e.gaps[4]);
    ReplacingVanishesNone(Moment(f, gaps, 3), gaps[3]);
    ReplacingVanishesNone(Moment(f, gaps, 4), gaps[4]);
  }

  lemma StepUsesStamps(settings: Settings, s: State, e: Event)
    requires StampsUsed(s.files)
    ensures StampsUsed(Step(settings, s, e).files)
  {
    var none := Stamps(None, None, None);
    var nothing := Contents(None, None, None);
    hide Apply, BuildAuth;
    match e
    case Outside(writes) => ApplyKeepsLinks(none, nothing, s.files, writes);
    case Call(gaps) =>
      if Reloads(s.cache, s.files, gaps) {
        ReloadLinks(s.files, gaps);
      } else {
        ApplyKeepsLinks(none, nothing, s.files, gaps[0]);
        ApplyKeepsLinks(none, nothing, Moment(s.files, gaps, 1), gaps[1]);
      }
  }

  lemma {:induction false} PlayRestores(settings: Settings, s: State, events: seq<Event>)
    requires StampsUsed(s.files)
    ensures var t := Play(settings, s, events);
            && (!HasReloaded(settings, s, events) ==> t.cache == s.cache)
            && (HasReloaded(settings, s, events) ==> CacheInv(settings, t.cache, t.files))
    decreases |events|
  {
    hide CacheInv, StampsUsed, FilesAfter, Sampled, ReadIn, Apply, BuildAuth;
    if events == [] {
    } else {
      var e, next := events[0], Step(settings, s, events[0]);
      if e.Call? && Reloads(s.cache, s.files, e.gaps) {
        ReloadRestores(settings, s, e.gaps);
        PlayKeeps(settings, next, events[1..]);
      } else {
        StepUsesStamps(settings, s, e);
        PlayRestores(settings, next, events[1..]);
      }
    }
  }

  lemma {:induction false} PlayRestoresMissing(settings: Settings, s: State, events: seq<Event>)
    requires StampsUsed(s.files) && HasReloaded(settings, s, events)
    requires forall i :: 0 <= i < |events| ==> ReplacesThroughout(events[i])
    ensures var t := Play(settings, s, events); StillMissing(t.cache.stamps, t.cache.seen, t.files)
    decreases |events|
  {
    hide StampsUsed, FilesAfter, Sampled, ReadIn, Apply, BuildAuth, StillMissing, ReplacesThroughout;
    var e, next := events[0], Step(settings, s, events[0]);
    if e.Call? && Reloads(s.cache, s.files, e.gaps) {
      ReloadRestores(settings, s, e.gaps);
      PlayKeepsMissing(settings, next, events[1..]);
    } else {
      StepUsesStamps(settings, s, e);
      PlayRestoresMissing(settings, next, events[1..]);
    }
  }

  /** Whatever was written between load and stamps, and over every run since: until some call finds a stamp
      changed, the cache is the initial one and answers from the contents loaded; from that call on
      it is coherent, so that, where files are only replaced, an undisturbed call answers from the
      present files. */
  lemma GapEndsAtReload(settings: Settings, loaded: Files, gap: seq<Write>, events: seq<Event>)
    requires StampsUsed(loaded)
    ensures var s := Started(settings, loaded, gap);
            var t := Play(settings, s, events);
            && (!HasReloaded(settings, s, events) ==>
                  t.cache == s.cache && t.cache.config == BuildAuth(settings, ContentsOf(loaded)))
            && (HasReloaded(settings, s, events) ==> CacheInv(settings, t.cache, t.files))
            && (HasReloaded(settings, s, events) && (forall i :: 0 <= i < |events| ==> ReplacesThroughout(events[i])) ==>
                  CacheAfter(settings, t.cache, t.files, UNDISTURBED).config == BuildAuth(settings, ContentsOf(t.files)))
  {
    var s := Started(settings, loaded, gap);
    var t := Play(settings, s, events);
    ApplyKeepsLinks(s.cache.stamps, s.cache.seen, loaded, gap);
    PlayRestores(settings, s, events);
    if HasReloaded(settings, s, events) && forall i :: 0 <= i < |events| ==> ReplacesThroughout(events[i]) {
      PlayRestoresMissing(settings, s, events);
      CacheIsCoherent(settings, t, []);
      assert Play(settings, t, []) == t;
    }
    hide Play, HasReloaded, ReplacesThroughout, CacheAfter;
  }

  /** The stamps a cache holds are old ones. */
  ghost predicate StampsPast(stamps: Stamps, f: Files) {
    && StampsUsed(f)
    && (stamps.config.Some? ==> stamps.config.value < f.clock)
    && (stamps.principals.Some? ==> stamps.principals.value < f.clock)
    && (stamps.token.Some? ==> stamps.token.value < f.clock)
  }

  ghost predicate AtLeast(stamp: Option<nat>, floor: Option<nat>) {
    floor.Some? ==> stamp.Some? && stamp.value >= floor.value
  }

  lemma {:induction false} StampsGrow(f: Files, writes: seq<Write>)
    requires StampsUsed(f) && Replaces(writes)
    ensures var g := Apply(f, writes);
            && StampsUsed(g)
            && AtLeast(StampOf(g.config), StampOf(f.config))
            && AtLeast(StampOf(g.principals), StampOf(f.principals))
            && AtLeast(StampOf(g.token), StampOf(f.token))
    decreases |writes|
  {
    if writes == [] {
    } else {
      assert !Deletes(writes[0]);
      StampsGrow(ApplyOne(f, writes[0]), writes[1..]);
    }
  }

  /** So the gap ends for good with the first call after any file is replaced: that call finds the stamp
      changed, whatever else is written during it. */
  lemma WriteForcesReload(cache: Cache, f: Files, w: Write, gaps: Gaps)
    requires StampsPast(cache.stamps, f) && !Deletes(w) && ReplacesThroughout(Call(gaps))
    ensures Reloads(cache, ApplyOne(f, w), gaps)
  {
    var g := ApplyOne(f, w);
    var e := Call(gaps);
    assert Replaces(e.gaps[0]) && Replaces(e.gaps[1]);
    assert Moment(g, gaps, 0) == g && Moment(g, gaps, 1) == Apply(g, gaps[0]);
    StampsGrow(g, gaps[0]);
    StampsGrow(Moment(g, gaps, 1), gaps[1]);
    hide Apply;
  }

  lemma {:induction false} PlayKeepsStampsPast(settings: Settings, s: State, events: seq<Event>)
    requires StampsPast(s.cache.stamps, s.files)
    ensures var t := Play(settings, s, events); StampsPast(t.cache.stamps, t.files)
    decreases |events|
  {
    hide StampsPast, Step;
    if events == [] {
    } else {
      StepKeepsStampsPast(settings, s, events[0]);
      PlayKeepsStampsPast(settings, Step(settings, s, events[0]), events[1..]);
    }
  }

  lemma StepKeepsStampsPast(settings: Settings, s: State, e: Event)
    requires StampsPast(s.cache.stamps, s.files)
    ensures var t := Step(settings, s, e); StampsPast(t.cache.stamps, t.files)
  {
    var seen := Contents(None, None, None);
    hide Apply, BuildAuth;
    match e
    case Outside(writes) => ApplyKeepsLinks(s.cache.stamps, seen, s.files, writes);
    case Call(gaps) =>
      if Reloads(s.cache, s.files, gaps) {
        ReloadLinks(s.files, gaps);
      } else {
        ApplyKeepsLinks(s.cache.stamps, seen, s.files, gaps[0]);
        ApplyKeepsLinks(s.cache.stamps, seen, Moment(s.files, gaps, 1), gaps[1]);
      }
  }

  /** After any run from the start: once a file is replaced, the next call reloads, if files are only
      replaced while it runs. */
  lemma GapEndsAtNextWrite(settings: Settings, loaded: Files, gap: seq<Write>, events: seq<Event>, w: Write, gaps: Gaps)
    requires StampsUsed(loaded) && !Deletes(w) && ReplacesThroughout(Call(gaps))
    ensures var t := Play(settings, Started(settings, loaded, gap), events);
            Reloads(t.cache, ApplyOne(t.files, w), gaps)
  {
    var s := Started(settings, loaded, gap);
    ApplyKeepsLinks(s.cache.stamps, s.cache.seen, loaded, gap);
    PlayKeepsStampsPast(settings, s, events);
    var t := Play(settings, s, events);
    WriteForcesReload(t.cache, t.files, w, gaps);
    hide Play, Reloads, StampsPast;
  }

  /** A file created after its stamp, read and then deleted leaves a cache that is wrong about the
      files while its stamps match them. */
  lemma DeletionEscapesTheStamps(settings: Settings, token: string)
    requires Trim(token) != []
    ensures var f := Files(Missing, Missing, Missing, 1);
            var stale := Cache(Stamps(Some(0), None, None), BuildAuth(settings, Contents(None, None, None)), Contents(None, None, None));
            var events := [Call([[], [], [WriteToken(Some(token))], [], []]), Outside([DeleteToken])];
            var t := Play(settings, State(stale, f), events);
            && CacheInv(settings, stale, f)
            && t.cache.stamps == StampsOf(t.files)
            && t.cache.config.localToken == Some(Trim(token))
            && BuildAuth(settings, ContentsOf(t.files)).localToken == None
  {
    var f := Files(Missing, Missing, Missing, 1);
    var stale := Cache(Stamps(Some(0), None, None), BuildAuth(settings, Contents(None, None, None)), Contents(None, None, None));
    var gaps: Gaps := [[], [], [WriteToken(Some(token))], [], []];
    var events := [Call(gaps), Outside([DeleteToken])];
    var g := f.(token := Present(1, Some(token)), clock := 2);
    assert Apply(f, []) == f && Apply(g, []) == g;
    assert Apply(f, [WriteToken(Some(token))]) == Apply(g, []);
    assert Moment(f, gaps, 0) == f;
    assert Moment(f, gaps, 1) == f;
    assert Moment(f, gaps, 2) == f;
    assert Moment(f, gaps, 3) == g;
    assert Moment(f, gaps, 4) == g;
    assert Moment(f, gaps, 5) == g;
    var s1 := Step(settings, State(stale, f), events[0]);
    assert s1 == State(Cache(Stamps(None, None, None), BuildAuth(settings, ContentsOf(g)), ContentsOf(g)), g);
    assert Apply(g, [DeleteToken]) == Apply(g.(token := Missing), []);
    var s2 := Step(settings, s1, events[1]);
    assert events[1..] == [Outside([DeleteToken])] && events[1..][1..] == [];
    assert Play(settings, s2, []) == s2;
    assert Play(settings, s1, events[1..]) == s2;
  }

  // ---------------------------------------------------------------- the store

  class Disk {
    var files: Files

    constructor (initial: Files)
      ensures files == initial
    {
      files := initial;
    }

    method Interfere(writes: seq<Write>)
      modifies this
      ensures files == Apply(old(files), writes)
    {
      files := Apply(files, writes);
    }
  }

  /** `AuthStore`: the mutex-guarded cache and the files it follows, if there is a home directory. */
  class AuthStore {
    const disk: Option<Disk>
    const settings: Settings
    var stamps: Stamps
    var config: AuthConfig
    ghost var seen: Contents

    ghost function Cached(): Cache
      reads this
    {
      Cache(stamps, config, seen)
    }

    /** The cache knows the files it follows. */
    ghost predicate Valid()
      reads this, if disk.Some? then {disk.value} else {}
    {
      disk.Some? ==>
        && CacheInv(settings, Cached(), disk.value.files)
        && StillMissing(stamps, seen, disk.value.files)
    }

    /** `new`, right after `load` built `initial` from the files. A password in the environment stays
        the one that load used. */
    constructor (home: Option<Disk>, passwordInEnv: bool, loadedWith: Settings, initial: AuthConfig)
      requires home.Some? ==> StampsUsed(home.value.files)
      requires home.Some? ==> initial == BuildAuth(loadedWith, ContentsOf(home.value.files))
      requires loadedWith.envPassword.Some? ==> passwordInEnv
      ensures Valid() && disk == home && config == initial
      ensures home.Some? ==> stamps == StampsOf(home.value.files)
      ensures settings.defaultTrustLan == loadedWith.defaultTrustLan
      ensures loadedWith.envPassword.Some? == passwordInEnv && home.Some? ==> settings == loadedWith
    {
      disk := home;
      settings := Settings(if passwordInEnv then initial.passwordHash else None, loadedWith.defaultTrustLan);
      stamps := if home.Some? then StampsOf(home.value.files) else Stamps(None, None, None);
      config := initial;
      seen := if home.Some? then ContentsOf(home.value.files) else Contents(None, None, None);
    }

    /** Writes by other processes between calls. */
    method Outside(writes: seq<Write>)
      requires Valid() && disk.Some? && Replaces(writes)
      modifies disk.value
      ensures Valid() && disk.value.files == Apply(old(disk.value.files), writes)
    {
      ApplyKeeps(settings, Cached(), disk.value.files, writes);
      ReplacingVanishesNone(disk.value.files, writes);
      disk.value.Interfere(writes);
    }

    /** `current`: stamps first, and the files only if a stamp moved. */
    method Current(gaps: Gaps) returns (r: AuthConfig)
      requires Valid() && ReplacesThroughout(Call(gaps))
      modifies this, if disk.Some? then {disk.value} else {}
      ensures Valid() && r == config
      ensures disk.None? ==> r == old(config) && stamps == old(stamps)
      ensures disk.Some? ==>
                && Cached() == CacheAfter(settings, old(Cached()), old(disk.value.files), gaps)
                && disk.value.files == FilesAfter(old(Cached()), old(disk.value.files), gaps)
      ensures disk.Some? && gaps == UNDISTURBED ==>
                && r == BuildAuth(settings, ContentsOf(disk.value.files)) && Answers(settings, disk.value.files, r)
                && disk.value.files == old(disk.value.files)
    {
      if disk.None? {
        return config;
      }
      var home := disk.value;
      ghost var before, files := Cached(), home.files;
      CallKeeps(settings, before, files, gaps);
      CallKeepsMissing(settings, before, files, gaps);
      UndisturbedMoments(files);
      FieldsOfTheFiles(settings, files);
      hide BuildAuth, Apply, Answers;
      var configStamp := StampOf(home.files.config);
      home.Interfere(gaps[0]);
      var principalsStamp := StampOf(home.files.principals);
      home.Interfere(gaps[1]);
      var tokenStamp := StampOf(home.files.token);
      assert home.files == Moment(files, gaps, 2);
      var sampled := Stamps(configStamp, principalsStamp, tokenStamp);
      assert sampled == Sampled(files, gaps);
      if sampled != stamps {
        home.Interfere(gaps[2]);
        assert home.files == Moment(files, gaps, 3);
        var daemon := Reading(home.files.config);
        home.Interfere(gaps[3]);
        assert home.files == Moment(files, gaps, 4);
        var principals := Reading(home.files.principals);
        home.Interfere(gaps[4]);
        assert home.files == Moment(files, gaps, 5);
        var read := Contents(daemon, principals, Reading(home.files.token));
        stamps, config, seen := sampled, BuildAuth(settings, read), read;
      }
      return config;
    }
  }
}
