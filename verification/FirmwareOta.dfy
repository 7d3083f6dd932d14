/** The single-target, one-shot firmware rule (relay/rules/15-firmware-ota.py). */
module FirmwareOta {
  import opened Options
  import opened Text

  // ---- configuration and the files ------------------------------------------

  datatype Config = Config(targetIp: string, targetOrigin: string, denyIps: set<string>, denyOrigins: set<string>)

  predicate Configured(cfg: Config) {
    cfg.targetIp != "" && cfg.targetOrigin != ""
  }

  predicate Denied(cfg: Config, ip: string, origin: string) {
    ip in cfg.denyIps || origin in cfg.denyOrigins
  }

  /** float(text): a moment, or one of the values that are never or always passed. */
  datatype Moment = At(time: real) | Never | Always

  predicate Passed(m: Moment, now: real) {
    m == Always || (m.At? && now >= m.time)
  }

  /** What the rule asks of the file system and of float(); all of it may differ at every request. */
  datatype Fs = Fs(
    isFile: string -> bool,
    sha256: string -> Option<string>,
    size: string -> Option<int>,
    moment: string -> Option<Moment>)

  datatype Phase = Offered | Transferring | Spent
  datatype Offer = Offer(ip: string, origin: string, epoch: real)
  datatype Transfer = Transfer(sent: int, filesize: int)

  /** The progress file: absent or unreadable is None. */
  datatype Progress = Progress(phase: Option<Phase>, offer: Option<Offer>, transfer: Option<Transfer>)

  const NO_PROGRESS := Progress(None, None, None)

  const CORRELATION_TTL := 120.0

  // ---- the ARM file ------------------------------------------------------------

  type Arm = map<string, string>

  /** text.partition("=") at the first '=', if there is one. */
  function FirstEquals(s: string): (i: nat)
    ensures i <= |s|
    ensures i < |s| ==> s[i] == '='
    ensures forall k :: 0 <= k < i ==> s[k] != '='
  {
    if s == "" || s[0] == '=' then 0 else 1 + FirstEquals(s[1..])
  }

  /** One stripped line: blank lines, comments and lines without '=' say nothing. */
  function ArmLine(arm: Arm, text: string): Arm {
    var line := Strip(text);
    var i := FirstEquals(line);
    if line == "" || line[0] == '#' || i == |line| then arm
    else arm[Strip(line[..i]) := Strip(line[i + 1..])]
  }

  function ArmFields(lines: seq<string>): Arm {
    if lines == [] then map[] else ArmLine(ArmFields(lines[..|lines| - 1]), lines[|lines| - 1])
  }

  method ParseArm(lines: seq<string>) returns (arm: Arm)
    ensures arm == ArmFields(lines)
  {
    arm := map[];
    for n := 0 to |lines|
      invariant arm == ArmFields(lines[..n])
    {
      assert lines[..n + 1][..n] == lines[..n];
      var line := Strip(lines[n]);
      if line == "" || line[0] == '#' {
        continue;
      }
      var i := FirstEquals(line);
      if i < |line| {
        arm := arm[Strip(line[..i]) := Strip(line[i + 1..])];
      }
    }
    assert lines[..|lines|] == lines;
  }

  predicate Trimmed(s: string) {
    s != "" && !IsSpace(s[0]) && !IsSpace(s[|s| - 1])
  }

  predicate IsArmKey(key: string) {
    Trimmed(key) && '=' !in key && key[0] != '#'
  }

  lemma FirstEqualsAt(key: string, value: string)
    requires '=' !in key
    ensures FirstEquals(key + "=" + value) == |key|
  {
    var line := key + "=" + value;
    assert forall k :: 0 <= k < |key| ==> line[k] == key[k];
    assert line[|key|] == '=';
  }

  /** A file of key=value lines says what its lines say, the last line for a key winning. */
  lemma ArmAssignment(lines: seq<string>, key: string, value: string)
    requires IsArmKey(key) && Trimmed(value)
    ensures ArmFields(lines + [key + "=" + value]) == ArmFields(lines)[key := value]
  {
    var line := key + "=" + value;
    assert (lines + [line])[..|lines|] == lines;
    StripTrimmed(line);
    FirstEqualsAt(key, value);
    assert line[..|key|] == key && line[|key| + 1..] == value;
    StripTrimmed(key);
    StripTrimmed(value);
  }

  predicate IsSha256(s: string) {
    |s| == 64 && AllHex(s)
  }

  predicate IsDigit(c: char) {
    '0' <= c <= '9'
  }

  predicate IsVersion(s: string) {
    1 <= |s| <= 16 && IsDigit(s[0]) && forall i :: 0 <= i < |s| ==> IsDigit(s[i]) || s[i] == '.'
  }

  predicate IsNameChar(c: char) {
    IsDigit(c) || 'a' <= c <= 'z' || 'A' <= c <= 'Z' || c in "._+-"
  }

  predicate IsFirmwareName(s: string) {
    1 <= |s| <= 80 && forall i :: 0 <= i < |s| ==> IsNameChar(s[i])
  }

  const REQUIRED: set<string> := {"target_ip", "target_origin", "fwr", "sha256", "offer_version", "fwnnam", "expires_epoch"}

  /** Fully armed: complete, for the configured target, well-formed, unexpired, and the image is there. */
  predicate ArmValid(cfg: Config, arm: Arm, fs: Fs, now: real) {
    && (forall key :: key in REQUIRED ==> key in arm && arm[key] != "")
    && arm["target_ip"] == cfg.targetIp && arm["target_origin"] == cfg.targetOrigin
    && IsSha256(arm["sha256"])
    && IsVersion(arm["offer_version"])
    && IsFirmwareName(arm["fwnnam"])
    && fs.moment(arm["expires_epoch"]).Some?
    && !Passed(fs.moment(arm["expires_epoch"]).value, now)
    && arm["fwr"][0] == '/' && fs.isFile(arm["fwr"])
  }

  predicate Armed(cfg: Config, armFile: Option<seq<string>>, fs: Fs, now: real) {
    armFile.Some? && ArmValid(cfg, ArmFields(armFile.value), fs, now)
  }

  /** The image on disk still is the one the operator meant. */
  predicate ImageMatches(arm: Arm, fs: Fs)
    requires "fwr" in arm && "sha256" in arm
  {
    fs.sha256(arm["fwr"]) == Some(Lower(arm["sha256"]))
  }

  predicate ExpectedPath(arm: Arm, path: string)
    requires "offer_version" in arm && "fwnnam" in arm
  {
    var v, n := arm["offer_version"], arm["fwnnam"];
    path == "/mef/firmware" + v + "/" + n || path == "/mef/firmware/MTAP/20/D/" + v + "/" + n
  }

  // ---- requests ------------------------------------------------------------------

  datatype Request = Request(verb: string, path: string, ip: string, originHeader: Option<string>,
                             now: real, fs: Fs, writable: bool)

  datatype Response =
    | NotOta
    | Block
    | OfferUpdate(version: string, name: string)
    | Stream(id: nat)

  /** The progress file, the ARM file and the transfers in flight. The last two fields are history only:
      the latest OFFER answered, and how many full transfers were recorded. */
  datatype Rule = Rule(progress: Option<Progress>, arm: Option<seq<string>>, streams: set<nat>, issued: nat,
                       lastOffer: Option<Offer>, completed: nat)

  function OriginOf(req: Request): string {
    Strip(req.originHeader.GetOr(""))
  }

  function Current(r: Rule): Progress {
    r.progress.GetOr(NO_PROGRESS)
  }

  predicate IsSpent(r: Rule) {
    Current(r).phase == Some(Spent)
  }

  function BeforeQuery(path: string): string {
    if path == "" || path[0] == '?' then "" else [path[0]] + BeforeQuery(path[1..])
  }

  predicate IsVersionCheck(path: string) {
    "/mef/updateVersionCheck/firmware/" <= path
  }

  predicate IsFirmwareGet(path: string) {
    "/mef/firmware" <= path
  }

  /** The checks both kinds of request go through first, in their order. */
  predicate Admitted(r: Rule, cfg: Config, req: Request) {
    && Configured(cfg)
    && !Denied(cfg, req.ip, OriginOf(req))
    && req.verb == "GET"
    && !IsSpent(r)
    && Armed(cfg, r.arm, req.fs, req.now)
    && ImageMatches(ArmFields(r.arm.value), req.fs)
  }

  predicate OffersTo(r: Rule, cfg: Config, req: Request) {
    Admitted(r, cfg, req) && req.ip == cfg.targetIp && OriginOf(req) == cfg.targetOrigin
  }

  function VersionCheck(r: Rule, cfg: Config, req: Request): (Rule, Response) {
    if OffersTo(r, cfg, req) && req.writable then
      var offer := Offer(req.ip, OriginOf(req), req.now);
      var arm := ArmFields(r.arm.value);
      (r.(progress := Some(Progress(Some(Offered), Some(offer), None)), lastOffer := Some(offer)),
       OfferUpdate(arm["offer_version"], arm["fwnnam"]))
    else (r, Block)
  }

  /** Case A: the header names the target. Case B: no header, but the target's address and a fresh offer. */
  predicate Correlates(cfg: Config, req: Request, offer: Offer) {
    && req.ip == cfg.targetIp
    && if OriginOf(req) != "" then OriginOf(req) == cfg.targetOrigin else req.now - offer.epoch <= CORRELATION_TTL
  }

  predicate StreamsTo(r: Rule, cfg: Config, req: Request, path: string) {
    && Admitted(r, cfg, req)
    && ExpectedPath(ArmFields(r.arm.value), path)
    && (Current(r).phase == Some(Offered) || Current(r).phase == Some(Transferring))
    && Current(r).offer.Some?
    && Current(r).offer.value.ip == cfg.targetIp && Current(r).offer.value.origin == cfg.targetOrigin
    && Correlates(cfg, req, Current(r).offer.value)
    && req.fs.size(ArmFields(r.arm.value)["fwr"]).Some?
  }

  function FirmwareGet(r: Rule, cfg: Config, req: Request, path: string): (Rule, Response) {
    if StreamsTo(r, cfg, req, path) && req.writable then
      var filesize := req.fs.size(ArmFields(r.arm.value)["fwr"]).value;
      (r.(progress := Some(Progress(Some(Transferring), Current(r).offer, Some(Transfer(0, filesize)))),
          streams := r.streams + {r.issued}, issued := r.issued + 1),
       Stream(r.issued))
    else (r, Block)
  }

  function Answer(r: Rule, cfg: Config, req: Request): (Rule, Response) {
    var path := BeforeQuery(req.path);
    if IsVersionCheck(path) then VersionCheck(r, cfg, req)
    else if IsFirmwareGet(path) then FirmwareGet(r, cfg, req, path)
    else (r, NotOta)
  }

  // ---- completion ------------------------------------------------------------------

  datatype Finish = Finish(id: nat, sent: int, filesize: int, writable: bool, renamable: bool)

  predicate IsFull(f: Finish) {
    f.filesize > 0 && f.sent == f.filesize
  }

  /** A full transfer burns the one shot and renames the ARM file away; any other keeps TRANSFERRING. */
  function StreamDone(r: Rule, f: Finish): Rule {
    if f.id !in r.streams then r
    else
      var closed := r.(streams := r.streams - {f.id});
      var st := Current(r).(transfer := Some(Transfer(f.sent, f.filesize)));
      if !f.writable then closed
      else if IsFull(f) then
        closed.(progress := Some(st.(phase := Some(Spent))),
                arm := if f.renamable then None else r.arm,
                completed := r.completed + 1)
      else closed.(progress := Some(st.(phase := Some(Transferring))))
  }

  class OtaRule {
    const cfg: Config
    var progress: Option<Progress>
    var arm: Option<seq<string>>
    var streams: set<nat>
    var issued: nat
    ghost var lastOffer: Option<Offer>
    ghost var completed: nat

    ghost function State(): Rule
      reads this
    {
      Rule(progress, arm, streams, issued, lastOffer, completed)
    }

    constructor (cfg: Config, progress: Option<Progress>, arm: Option<seq<string>>)
      ensures this.cfg == cfg && State() == Rule(progress, arm, {}, 0, None, 0)
    {
      this.cfg := cfg;
      this.progress := progress;
      this.arm := arm;
      streams, issued := {}, 0;
      lastOffer, completed := None, 0;
    }

    method OnHttpRequest(req: Request) returns (response: Response)
      modifies this
      ensures (State(), response) == Answer(old(State()), cfg, req)
    {
      var path := BeforeQuery(req.path);
      if IsVersionCheck(path) {
        response := HandleVersionCheck(req);
      } else if IsFirmwareGet(path) {
        response := HandleFirmwareGet(req, path);
      } else {
        response := NotOta;
      }
    }

    method HandleVersionCheck(req: Request) returns (response: Response)
      modifies this
      ensures (State(), response) == VersionCheck(old(State()), cfg, req)
    {
      var origin := Strip(req.originHeader.GetOr(""));
      if !Configured(cfg) { return Block; }
      if req.ip in cfg.denyIps || origin in cfg.denyOrigins { return Block; }
      if req.verb != "GET" { return Block; }
      var st := progress.GetOr(NO_PROGRESS);
      if st.phase == Some(Spent) { return Block; }
      if !Armed(cfg, arm, req.fs, req.now) { return Block; }
      var fields := ParseArm(arm.value);
      if !ImageMatches(fields, req.fs) { return Block; }
      if !(req.ip == cfg.targetIp && origin == cfg.targetOrigin) { return Block; }
      if !req.writable { return Block; }
      var offer := Offer(req.ip, origin, req.now);
      progress := Some(Progress(Some(Offered), Some(offer), None));
      lastOffer := Some(offer);
      return OfferUpdate(fields["offer_version"], fields["fwnnam"]);
    }

    method HandleFirmwareGet(req: Request, path: string) returns (response: Response)
      modifies this
      ensures (State(), response) == FirmwareGet(old(State()), cfg, req, path)
    {
      hide ArmLine, IsSha256, IsVersion, IsFirmwareName, Passed, Strip;
      var origin := Strip(req.originHeader.GetOr(""));
      if !Configured(cfg) { return Block; }
      if req.ip in cfg.denyIps || origin in cfg.denyOrigins { return Block; }
      if req.verb != "GET" { return Block; }
      var st := progress.GetOr(NO_PROGRESS);
      if st.phase == Some(Spent) { return Block; }
      if !Armed(cfg, arm, req.fs, req.now) { return Block; }
      var fields := ParseArm(arm.value);
      if !ImageMatches(fields, req.fs) { return Block; }
      if !ExpectedPath(fields, path) { return Block; }
      if st.phase != Some(Offered) && st.phase != Some(Transferring) { return Block; }
      if st.offer == None || st.offer.value.ip != cfg.targetIp || st.offer.value.origin != cfg.targetOrigin {
        return Block;
      }
      if origin != "" {
        if !(req.ip == cfg.targetIp && origin == cfg.targetOrigin) { return Block; }
      } else {
        if req.ip != cfg.targetIp { return Block; }
        var age := req.now - st.offer.value.epoch;
        if age > CORRELATION_TTL { return Block; }
      }
      var filesize := req.fs.size(fields["fwr"]);
      if filesize == None { return Block; }
      if !req.writable { return Block; }
      progress := Some(Progress(Some(Transferring), st.offer, Some(Transfer(0, filesize.value))));
      var id := issued;
      streams := streams + {id};
      issued := issued + 1;
      return Stream(id);
    }

    method OnStreamDone(f: Finish)
      requires f.id in streams
      modifies this
      ensures State() == StreamDone(old(State()), f)
    {
      streams := streams - {f.id};
      var st := progress.GetOr(NO_PROGRESS);
      st := st.(transfer := Some(Transfer(f.sent, f.filesize)));
      if f.filesize > 0 && f.sent == f.filesize {
        st := st.(phase := Some(Spent));
        if f.writable {
          progress := Some(st);
          completed := completed + 1;
          if f.renamable {
            arm := None;
          }
        }
      } else {
        st := st.(phase := Some(Transferring));
        if f.writable {
          progress := Some(st);
        }
      }
    }
  }

  // ---- one request: who can be served ---------------------------------------------

  /** What the refusals above come to; the theorems on runs build on it. */
  lemma DeniedIsBlocked(r: Rule, cfg: Config, req: Request)
    requires Denied(cfg, req.ip, OriginOf(req)) || !Configured(cfg) || IsSpent(r) || r.arm == None
    ensures Answer(r, cfg, req) == (r, Block) || Answer(r, cfg, req) == (r, NotOta)
  {
  }

  /** What the checks before an answer come to. */
  lemma OnlyTheTargetIsServed(r: Rule, cfg: Config, req: Request)
    requires var response := Answer(r, cfg, req).1; response.OfferUpdate? || response.Stream?
    ensures req.ip == cfg.targetIp != ""
    ensures OriginOf(req) == cfg.targetOrigin || (OriginOf(req) == "" && Answer(r, cfg, req).1.Stream?)
    ensures req.ip !in cfg.denyIps && OriginOf(req) !in cfg.denyOrigins
    ensures r.arm.Some? && var arm := ArmFields(r.arm.value);
            && ArmValid(cfg, arm, req.fs, req.now)
            && req.fs.sha256(arm["fwr"]) == Some(Lower(arm["sha256"]))
  {
  }

  // ---- runs --------------------------------------------------------------------------

  datatype Step =
    | Asks(req: Request)
    | Finishes(finish: Finish)
    | OperatorArms(lines: seq<string>)

  function Next(r: Rule, cfg: Config, step: Step): Rule {
    match step
    case Asks(req) => Answer(r, cfg, req).0
    case Finishes(f) => StreamDone(r, f)
    case OperatorArms(lines) => r.(arm := Some(lines))
  }

  /** What a step answers; only requests are answered. */
  function Reply(r: Rule, cfg: Config, step: Step): Response {
    if step.Asks? then Answer(r, cfg, step.req).1 else NotOta
  }

  function Run(r: Rule, cfg: Config, steps: seq<Step>): Rule {
    if steps == [] then r else Next(Run(r, cfg, steps[..|steps| - 1]), cfg, steps[|steps| - 1])
  }

  predicate Refuses(response: Response) {
    response == Block || response == NotOta
  }

  lemma {:induction false} NoArmPersists(r: Rule, cfg: Config, steps: seq<Step>)
    requires r.arm == None && forall i :: 0 <= i < |steps| ==> !steps[i].OperatorArms?
    ensures Run(r, cfg, steps).arm == None
  {
    if steps != [] {
      NoArmPersists(r, cfg, steps[..|steps| - 1]);
    }
  }

  /** One-shot: after a full transfer whose ARM rename succeeded, every request is refused until the
      operator arms again -- in every interleaving with streams that are still open. */
  lemma OneShot(r: Rule, cfg: Config, f: Finish, steps: seq<Step>, next: Request)
    requires f.id in r.streams && IsFull(f) && f.writable && f.renamable
    requires forall i :: 0 <= i < |steps| ==> !steps[i].OperatorArms?
    ensures Refuses(Answer(Run(StreamDone(r, f), cfg, steps), cfg, next).1)
  {
    NoArmPersists(StreamDone(r, f), cfg, steps);
    DeniedIsBlocked(Run(StreamDone(r, f), cfg, steps), cfg, next);
  }

  lemma {:induction false} SpentPersists(r: Rule, cfg: Config, steps: seq<Step>)
    requires IsSpent(r) && r.streams == {}
    ensures var end := Run(r, cfg, steps); IsSpent(end) && end.streams == {} && end.completed == r.completed
  {
    if steps != [] {
      SpentPersists(r, cfg, steps[..|steps| - 1]);
      var mid := Run(r, cfg, steps[..|steps| - 1]);
      if steps[|steps| - 1].Asks? {
        DeniedIsBlocked(mid, cfg, steps[|steps| - 1].req);
      }
    }
  }

  /** SPENT is terminal, whatever the operator, the devices and the file system do next, exactly when no
      transfer is still in flight: an incomplete one that finishes later writes TRANSFERRING over it. */
  lemma SpentIsTerminalIff(r: Rule, cfg: Config)
    requires IsSpent(r)
    ensures (forall steps :: IsSpent(Run(r, cfg, steps))) <==> r.streams == {}
  {
    if r.streams == {} {
      forall steps ensures IsSpent(Run(r, cfg, steps)) {
        SpentPersists(r, cfg, steps);
      }
    } else {
      var id :| id in r.streams;
      var step := Finishes(Finish(id, 0, 1, true, true));
      var steps := [step];
      assert steps[..|steps| - 1] == [] && Run(r, cfg, []) == r;
      assert Run(r, cfg, steps) == Next(r, cfg, step);
      assert !IsSpent(Run(r, cfg, steps));
    }
  }

  /** At most one transfer is in flight at any moment of the run. */
  ghost predicate Serial(r: Rule, cfg: Config, steps: seq<Step>) {
    forall n :: 0 <= n <= |steps| ==> |Run(r, cfg, steps[..n]).streams| <= 1
  }

  lemma AtMostOne(s: set<nat>, id: nat)
    requires |s| <= 1 && id in s
    ensures s == {id}
  {
    if s != {id} {
      var other :| other in s && other != id;
      assert {id, other} <= s;
      SubsetSize({id, other}, s);
    }
  }

  lemma {:induction false} SubsetSize(a: set<nat>, b: set<nat>)
    requires a <= b
    ensures |a| <= |b|
  {
    if a != {} {
      var x :| x in a;
      SubsetSize(a - {x}, b - {x});
    }
  }

  lemma {:induction false} SerialSpent(r: Rule, cfg: Config, steps: seq<Step>, n: nat)
    requires r.streams == {} && !IsSpent(r) && r.completed == 0
    requires Serial(r, cfg, steps) && n <= |steps|
    ensures var s := Run(r, cfg, steps[..n]);
            && (IsSpent(s) ==> s.streams == {})
            && s.completed == if IsSpent(s) then 1 else 0
  {
    if n > 0 {
      SerialSpent(r, cfg, steps, n - 1);
      assert steps[..n][..n - 1] == steps[..n - 1];
      var before, step := Run(r, cfg, steps[..n - 1]), steps[n - 1];
      if step.Finishes? && step.finish.id in before.streams {
        AtMostOne(before.streams, step.finish.id);
      } else if step.Asks? && IsSpent(before) {
        DeniedIsBlocked(before, cfg, step.req);
      }
    }
  }

  /** With at most one transfer in flight, SPENT is absorbing even if the ARM rename fails or the operator
      arms again, at most one full transfer is ever recorded, and nothing is served after it. */
  lemma SerialRunsAreOneShot(r: Rule, cfg: Config, steps: seq<Step>, i: nat, j: nat)
    requires r.streams == {} && !IsSpent(r) && r.completed == 0
    requires Serial(r, cfg, steps) && i <= j <= |steps|
    requires IsSpent(Run(r, cfg, steps[..i]))
    ensures IsSpent(Run(r, cfg, steps[..j])) && Run(r, cfg, steps[..j]).completed == 1
    ensures j < |steps| ==> Refuses(Reply(Run(r, cfg, steps[..j]), cfg, steps[j]))
  {
    SerialSpent(r, cfg, steps, i);
    SerialSpent(r, cfg, steps, j);
    RunConcat(r, cfg, steps[..i], steps[i..j]);
    assert steps[..j] == steps[..i] + steps[i..j];
    SpentPersists(Run(r, cfg, steps[..i]), cfg, steps[i..j]);
    if j < |steps| && steps[j].Asks? {
      DeniedIsBlocked(Run(r, cfg, steps[..j]), cfg, steps[j].req);
    }
  }

  lemma {:induction false} RunConcat(r: Rule, cfg: Config, a: seq<Step>, b: seq<Step>)
    ensures Run(r, cfg, a + b) == Run(Run(r, cfg, a), cfg, b)
  {
    if b == [] {
      assert a + b == a;
    } else {
      assert (a + b)[..|a + b| - 1] == a + b[..|b| - 1];
      RunConcat(r, cfg, a, b[..|b| - 1]);
    }
  }

  // ---- offers and transfers ------------------------------------------------------------

  /** A rule that has just been deployed: no progress file, nothing in flight. */
  ghost predicate Fresh(r: Rule) {
    r.progress == None && r.streams == {} && r.lastOffer == None && r.completed == 0
  }

  /** The stored offer is the latest one answered, and it was answered to the target. */
  ghost predicate OfferOnFile(r: Rule, cfg: Config) {
    && (r.progress == None ==> r.lastOffer == None && r.streams == {})
    && (r.progress.Some? ==> r.lastOffer.Some? && r.progress.value.offer == r.lastOffer)
    && (r.lastOffer.Some? ==> r.lastOffer.value.ip == cfg.targetIp && r.lastOffer.value.origin == cfg.targetOrigin)
  }

  /** Across re-offers, downloads and completions of any number of overlapping transfers, the stored
      offer always is the latest OFFER that was answered. */
  lemma {:induction false} StoredOfferIsTheLatest(r: Rule, cfg: Config, steps: seq<Step>)
    requires Fresh(r)
    ensures OfferOnFile(Run(r, cfg, steps), cfg)
  {
    hide Armed, ImageMatches, ExpectedPath;
    if steps != [] {
      StoredOfferIsTheLatest(r, cfg, steps[..|steps| - 1]);
    }
  }

  /** Every transfer answers an earlier OFFER to the target; and a download request without an
      X-M2M-Origin header is served at most 120 seconds after the latest such OFFER. */
  lemma EveryStreamWasOffered(r: Rule, cfg: Config, steps: seq<Step>, req: Request)
    requires Fresh(r)
    requires Answer(Run(r, cfg, steps), cfg, req).1.Stream?
    ensures var s := Run(r, cfg, steps);
            && s.lastOffer.Some?
            && s.lastOffer.value.ip == cfg.targetIp && s.lastOffer.value.origin == cfg.targetOrigin
            && (OriginOf(req) == "" ==> req.now <= s.lastOffer.value.epoch + CORRELATION_TTL)
  {
    StoredOfferIsTheLatest(r, cfg, steps);
  }

  /** The history records an offer exactly when one is answered, with its sender and its time. */
  lemma OffersAreRecorded(r: Rule, cfg: Config, step: Step)
    ensures Next(r, cfg, step).lastOffer
         == if Reply(r, cfg, step).OfferUpdate? then Some(Offer(step.req.ip, OriginOf(step.req), step.req.now))
            else r.lastOffer
  {
  }

  // ---- who is ever served, and with what ------------------------------------------------

  /** A completion after which the ARM file is gone. */
  predicate Burns(r: Rule, step: Step) {
    step.Finishes? && step.finish.id in r.streams && IsFull(step.finish) && step.finish.writable && step.finish.renamable
  }

  /** The step at which the operator wrote the ARM file that is there now, or -1 if there is none. */
  function ArmingOnFile(r: Rule, cfg: Config, steps: seq<Step>): (i: int)
    requires r.arm == None
    ensures -1 <= i < |steps|
    ensures i >= 0 ==> steps[i].OperatorArms?
  {
    if steps == [] then -1
    else
      var init, last := steps[..|steps| - 1], steps[|steps| - 1];
      if last.OperatorArms? then |steps| - 1
      else if Burns(Run(r, cfg, init), last) then -1
      else ArmingOnFile(r, cfg, init)
  }

  lemma {:induction false} ArmIsOnFile(r: Rule, cfg: Config, steps: seq<Step>)
    requires r.arm == None
    ensures var i := ArmingOnFile(r, cfg, steps);
            Run(r, cfg, steps).arm == if i < 0 then None else Some(steps[i].lines)
  {
    hide Admitted, OffersTo, StreamsTo, BeforeQuery;
    if steps != [] {
      ArmIsOnFile(r, cfg, steps[..|steps| - 1]);
    }
  }

  lemma {:induction false} NothingSinceArming(r: Rule, cfg: Config, steps: seq<Step>, k: nat)
    requires r.arm == None && 0 <= ArmingOnFile(r, cfg, steps) < k < |steps|
    ensures !steps[k].OperatorArms? && !Burns(Run(r, cfg, steps[..k]), steps[k])
  {
    hide Run, Burns;
    var init := steps[..|steps| - 1];
    if k < |steps| - 1 {
      NothingSinceArming(r, cfg, init, k);
      assert init[..k] == steps[..k];
    }
  }

  /** In every run from a rule that is not armed: whoever is served is the configured, undenied target, and
      what it is offered or sent is the image whose digest the operator wrote last, no transfer having used
      that up. (An ARM file that is there to begin with is one the operator writes in the first step.) */
  lemma ServedAsArmed(r: Rule, cfg: Config, steps: seq<Step>, req: Request)
    requires r.arm == None
    requires var response := Answer(Run(r, cfg, steps), cfg, req).1; response.OfferUpdate? || response.Stream?
    ensures req.ip == cfg.targetIp != "" && req.ip !in cfg.denyIps && OriginOf(req) !in cfg.denyOrigins
    ensures OriginOf(req) == cfg.targetOrigin || (OriginOf(req) == "" && Answer(Run(r, cfg, steps), cfg, req).1.Stream?)
    ensures exists i :: 0 <= i < |steps| && steps[i].OperatorArms?
              && (var arm := ArmFields(steps[i].lines);
                  && ArmValid(cfg, arm, req.fs, req.now)
                  && req.fs.sha256(arm["fwr"]) == Some(Lower(arm["sha256"])))
              && (forall k :: i < k < |steps| ==> !steps[k].OperatorArms? && !Burns(Run(r, cfg, steps[..k]), steps[k]))
  {
    var s := Run(r, cfg, steps);
    OnlyTheTargetIsServed(s, cfg, req);
    ArmIsOnFile(r, cfg, steps);
    var i := ArmingOnFile(r, cfg, steps);
    forall k | i < k < |steps| && 0 <= i ensures !steps[k].OperatorArms? && !Burns(Run(r, cfg, steps[..k]), steps[k]) {
      NothingSinceArming(r, cfg, steps, k);
    }
    hide Run, Burns, Answer, ArmFields;
    assert steps[i].OperatorArms?;
  }

  // ---- a run from deployment that leaves SPENT ------------------------------------------

  /** A rule that has just been deployed and armed by the operator. */
  function Deployed(lines: seq<string>): Rule {
    Rule(None, Some(lines), {}, 0, None, 0)
  }

  /** The target asks, downloads twice at once, and the first download completes. */
  function FirstOfTwo(check: Request, get: Request): seq<Step> {
    [Asks(check), Asks(get), Asks(get), Finishes(Finish(0, 4, 4, true, true))]
  }

  /** The second download is cut off. */
  const CUT_OFF := Finishes(Finish(1, 1, 4, true, true))

  lemma RunStep(r: Rule, cfg: Config, steps: seq<Step>, step: Step)
    ensures Run(r, cfg, steps + [step]) == Next(Run(r, cfg, steps), cfg, step)
  {
    assert (steps + [step])[..|steps|] == steps;
  }

  lemma TwoDownloads(r: Rule, cfg: Config, check: Request, get: Request)
    requires r == Deployed(r.arm.GetOr([])) && OffersTo(r, cfg, check) && check.writable
    requires IsVersionCheck(BeforeQuery(check.path))
    requires !IsVersionCheck(BeforeQuery(get.path)) && IsFirmwareGet(BeforeQuery(get.path)) && get.writable
    requires Admitted(r, cfg, get) && ExpectedPath(ArmFields(r.arm.value), BeforeQuery(get.path))
    requires Correlates(cfg, get, Offer(check.ip, OriginOf(check), check.now))
    requires get.fs.size(ArmFields(r.arm.value)["fwr"]).Some?
    ensures var s := Run(r, cfg, FirstOfTwo(check, get));
            && IsSpent(s) && s.streams == {1} && s.arm == None
            && !IsSpent(Next(s, cfg, CUT_OFF)) && Current(Next(s, cfg, CUT_OFF)).phase == Some(Transferring)
  {
    hide Armed, ImageMatches, ArmFields, Correlates, ExpectedPath, IsVersionCheck, IsFirmwareGet, BeforeQuery, Run;
    var done := Finishes(Finish(0, 4, 4, true, true));
    RunNone(r, cfg);
    RunStep(r, cfg, [], Asks(check));
    RunStep(r, cfg, [Asks(check)], Asks(get));
    RunStep(r, cfg, [Asks(check), Asks(get)], Asks(get));
    RunStep(r, cfg, [Asks(check), Asks(get), Asks(get)], done);
    assert [] + [Asks(check)] == [Asks(check)];
    assert [Asks(check)] + [Asks(get)] == [Asks(check), Asks(get)];
    assert [Asks(check), Asks(get)] + [Asks(get)] == [Asks(check), Asks(get), Asks(get)];
    assert [Asks(check), Asks(get), Asks(get)] + [done] == FirstOfTwo(check, get);
    var r1 := Next(r, cfg, Asks(check));
    assert r1.arm == r.arm && Current(r1) == Progress(Some(Offered), Some(Offer(check.ip, OriginOf(check), check.now)), None);
    var r2 := Next(r1, cfg, Asks(get));
    assert r2.streams == {0} && r2.issued == 1;
    var r3 := Next(r2, cfg, Asks(get));
    assert r3.streams == {0, 1};
    var r4 := Next(r3, cfg, done);
    assert r4.streams == {1} && Current(r4).phase == Some(Spent);
  }

  lemma RunNone(r: Rule, cfg: Config)
    ensures Run(r, cfg, []) == r
  {
  }

  const TARGET := Config("192.168.0.5", "ASN_CSE-D-0123456789-MTAP", {}, {})

  const DIGEST: string := seq(64, _ => 'a')

  const DISK := Fs(_ => true, _ => Some(DIGEST), _ => Some(4), _ => Some(Never))

  function Line(key: string, value: string): string {
    key + "=" + value
  }

  const ARM_LINES: seq<string> := [
    Line("target_ip", TARGET.targetIp), Line("target_origin", TARGET.targetOrigin), Line("fwr", "/fw/mttl.bin"),
    Line("sha256", DIGEST), Line("offer_version", "1.0.106"), Line("fwnnam", "mttl.bin"), Line("expires_epoch", "inf")]

  const ARM_FIELDS: Arm := map[
    "target_ip" := TARGET.targetIp, "target_origin" := TARGET.targetOrigin, "fwr" := "/fw/mttl.bin",
    "sha256" := DIGEST, "offer_version" := "1.0.106", "fwnnam" := "mttl.bin", "expires_epoch" := "inf"]

  lemma ArmKeys()
    ensures IsArmKey("target_ip") && IsArmKey("target_origin") && IsArmKey("fwr") && IsArmKey("sha256")
    ensures IsArmKey("offer_version") && IsArmKey("fwnnam") && IsArmKey("expires_epoch")
  {
  }

  lemma ArmLinesRead()
    ensures ArmFields(ARM_LINES) == ARM_FIELDS
  {
    hide ArmLine, ArmFields, IsArmKey;
    ArmKeys();
    var l := ARM_LINES;
    assert l[..1] == [] + [l[0]] && l[..2] == l[..1] + [l[1]] && l[..3] == l[..2] + [l[2]] && l[..4] == l[..3] + [l[3]];
    assert l[..5] == l[..4] + [l[4]] && l[..6] == l[..5] + [l[5]] && l == l[..6] + [l[6]];
    NoArmLines();
    ArmAssignment([], "target_ip", TARGET.targetIp);
    ArmAssignment(l[..1], "target_origin", TARGET.targetOrigin);
    ArmAssignment(l[..2], "fwr", "/fw/mttl.bin");
    ArmAssignment(l[..3], "sha256", DIGEST);
    ArmAssignment(l[..4], "offer_version", "1.0.106");
    ArmAssignment(l[..5], "fwnnam", "mttl.bin");
    ArmAssignment(l[..6], "expires_epoch", "inf");
  }

  lemma NoArmLines()
    ensures ArmFields([]) == map[]
  {
  }

  const CHECK := Request("GET", "/mef/updateVersionCheck/firmware/1", TARGET.targetIp, Some(TARGET.targetOrigin),
                         0.0, DISK, true)
  const GET := Request("GET", "/mef/firmware1.0.106/mttl.bin", TARGET.targetIp, None, 60.0, DISK, true)

  lemma {:induction false} NoQuery(path: string)
    requires '?' !in path
    ensures BeforeQuery(path) == path
  {
    if path != "" {
      NoQuery(path[1..]);
    }
  }

  lemma TargetIsServed()
    ensures OffersTo(Deployed(ARM_LINES), TARGET, CHECK) && Admitted(Deployed(ARM_LINES), TARGET, GET)
    ensures OriginOf(CHECK) == TARGET.targetOrigin && OriginOf(GET) == ""
  {
    OriginsRead();
    ArmLinesRead();
    TargetIsArmed();
    hide ArmFields, ArmValid, OriginOf;
    assert Lower(DIGEST) == DIGEST;
  }

  lemma OriginsRead()
    ensures OriginOf(CHECK) == TARGET.targetOrigin && OriginOf(GET) == ""
  {
    StripTrimmed(TARGET.targetOrigin);
    StripTrimmed("");
  }

  lemma TargetIsArmed()
    ensures ArmValid(TARGET, ARM_FIELDS, DISK, CHECK.now) && ArmValid(TARGET, ARM_FIELDS, DISK, GET.now)
  {
  }

  lemma CheckHasNoQuery()
    ensures '?' !in CHECK.path
  {
  }

  lemma GetHasNoQuery()
    ensures '?' !in GET.path
  {
  }

  lemma PathsRead()
    ensures BeforeQuery(CHECK.path) == CHECK.path && BeforeQuery(GET.path) == GET.path
  {
    hide BeforeQuery;
    CheckHasNoQuery();
    GetHasNoQuery();
    NoQuery(CHECK.path);
    NoQuery(GET.path);
  }

  lemma PathsDiffer()
    ensures IsVersionCheck(CHECK.path) && !IsVersionCheck(GET.path) && IsFirmwareGet(GET.path)
  {
    assert GET.path[5] != "/mef/updateVersionCheck/firmware/"[5];
  }

  lemma GetPathExpected()
    ensures ExpectedPath(ARM_FIELDS, GET.path)
  {
    assert GET.path == "/mef/firmware" + "1.0.106" + "/" + "mttl.bin";
  }

  /** The promise that SPENT is terminal fails in a run that starts from deployment: the configured target
      asks, downloads twice, one download completes, and the other one is cut off. */
  lemma SpentIsLeft()
    ensures Fresh(Deployed(ARM_LINES))
    ensures IsSpent(Run(Deployed(ARM_LINES), TARGET, FirstOfTwo(CHECK, GET)))
    ensures !IsSpent(Run(Deployed(ARM_LINES), TARGET, FirstOfTwo(CHECK, GET) + [CUT_OFF]))
  {
    hide Admitted, OffersTo, Run, ArmFields, BeforeQuery, IsVersionCheck, IsFirmwareGet, ExpectedPath, OriginOf, FirstOfTwo;
    TargetIsServed();
    ArmLinesRead();
    PathsRead();
    PathsDiffer();
    GetPathExpected();
    TwoDownloads(Deployed(ARM_LINES), TARGET, CHECK, GET);
    RunStep(Deployed(ARM_LINES), TARGET, FirstOfTwo(CHECK, GET), CUT_OFF);
  }
}
