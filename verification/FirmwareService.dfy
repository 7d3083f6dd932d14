/** Exactly which requests the firmware rule serves, and with what, read off the request, the lines the operator wrote
    last, the clock and the files (relay/rules/15-firmware-ota.py). */
module FirmwareService {
  import opened Options
  import opened Text
  import opened FirmwareOta

  // ---- what an ARM file says -----------------------------------------------------------

  const ARM_KEYS: set<string> :=
    {"target_ip", "target_origin", "fwr", "sha256", "offer_version", "fwnnam", "expires_epoch"}

  predicate IsHexDigit(c: char) {
    '0' <= c <= '9' || 'a' <= c <= 'f' || 'A' <= c <= 'F'
  }

  predicate IsFileNameChar(c: char) {
    '0' <= c <= '9' || 'a' <= c <= 'z' || 'A' <= c <= 'Z' || c == '.' || c == '_' || c == '+' || c == '-'
  }

  /** Nothing is missing, it is for the configured target, and version, name and digest are well-formed. */
  predicate Complete(cfg: Config, fields: Arm) {
    && (forall key :: key in ARM_KEYS ==> key in fields && fields[key] != "")
    && fields["target_ip"] == cfg.targetIp && fields["target_origin"] == cfg.targetOrigin
    && |fields["sha256"]| == 64 && (forall i :: 0 <= i < 64 ==> IsHexDigit(fields["sha256"][i]))
    && (var v := fields["offer_version"];
        && |v| <= 16 && '0' <= v[0] <= '9' && forall i :: 0 <= i < |v| ==> '0' <= v[i] <= '9' || v[i] == '.')
    && (var n := fields["fwnnam"]; |n| <= 80 && forall i :: 0 <= i < |n| ==> IsFileNameChar(n[i]))
  }

  /** The image is at an absolute path, and its digest is the one given, in either case of letters. */
  predicate ImageThere(fields: Arm, fs: Fs)
    requires "fwr" in fields && "sha256" in fields && fields["fwr"] != ""
  {
    && fields["fwr"][0] == '/' && fs.isFile(fields["fwr"])
    && fs.sha256(fields["fwr"]).Some? && fs.sha256(fields["fwr"]).value == Lower(fields["sha256"])
  }

  /** The time of expiry is a moment still to come, or one that never comes. */
  predicate InTime(fields: Arm, fs: Fs, now: real)
    requires "expires_epoch" in fields
  {
    match fs.moment(fields["expires_epoch"])
    case Some(At(t)) => now < t
    case Some(Never) => true
    case Some(Always) => false
    case None => false
  }

  predicate Ready(cfg: Config, fields: Arm, fs: Fs, now: real) {
    Complete(cfg, fields) && ImageThere(fields, fs) && InTime(fields, fs, now)
  }

  lemma ReadyIsArmed(cfg: Config, lines: seq<string>, fs: Fs, now: real)
    ensures var fields := ArmFields(lines);
            Ready(cfg, fields, fs, now) <==> Armed(cfg, Some(lines), fs, now) && ImageMatches(fields, fs)
  {
    hide ArmFields;
    var fields := ArmFields(lines);
    assert forall key :: key in ARM_KEYS <==> key in REQUIRED;
    if forall key :: key in REQUIRED ==> key in fields && fields[key] != "" {
      assert "sha256" in REQUIRED && "offer_version" in REQUIRED && "fwnnam" in REQUIRED && "fwr" in REQUIRED;
      assert "expires_epoch" in REQUIRED;
      DigestText(fields["sha256"]);
      NameText(fields["fwnnam"]);
      hide IsSha256, IsFirmwareName, IsHexDigit, IsFileNameChar;
    }
  }

  lemma DigestText(s: string)
    ensures IsSha256(s) <==> |s| == 64 && forall i :: 0 <= i < 64 ==> IsHexDigit(s[i])
  {
  }

  lemma NameText(s: string)
    requires s != ""
    ensures IsFirmwareName(s) <==> |s| <= 80 && forall i :: 0 <= i < |s| ==> IsFileNameChar(s[i])
  {
    assert forall c: char :: IsNameChar(c) <==> IsFileNameChar(c);
  }

  /** Blank lines, comments and lines without '=' say nothing. */
  lemma OtherLinesSayNothing(lines: seq<string>, text: string)
    requires Strip(text) == "" || Strip(text)[0] == '#' || '=' !in Strip(text)
    ensures ArmFields(lines + [text]) == ArmFields(lines)
  {
    assert (lines + [text])[..|lines|] == lines;
  }

  predicate Blank(s: string) {
    forall i :: 0 <= i < |s| ==> IsSpace(s[i])
  }

  lemma StripPaddedKey(key: string, pad: string)
    requires Trimmed(key) && Blank(pad)
    ensures Strip(key + pad) == key && Strip(pad + key) == key
  {
    StripPadded("", key, pad);
    StripPadded(pad, key, "");
    assert "" + key + pad == key + pad && pad + key + "" == pad + key;
  }

  lemma NoEqualsIn(key: string, pad: string)
    requires '=' !in key && Blank(pad)
    ensures '=' !in key + pad
  {
    assert forall i :: 0 <= i < |pad| ==> pad[i] != '=';
  }

  /** A line whose sides are padded says what its sides say. */
  lemma LineSides(arm: Arm, text: string, left: string, right: string)
    requires Strip(text) == left + "=" + right && '=' !in left && left != "" && left[0] != '#'
    ensures ArmLine(arm, text) == arm[Strip(left) := Strip(right)]
  {
    var line := Strip(text);
    FirstEqualsAt(left, right);
    assert line[0] == left[0] && line[|left|] == '=';
    assert line[..|left|] == left && line[|left| + 1..] == right;
    hide Strip, FirstEquals;
  }

  /** White space around a line, its key or its value does not count; a value may contain '='. */
  lemma PaddedLineSaysTheSame(lines: seq<string>, a: string, key: string, b: string, c: string, value: string, d: string)
    requires IsArmKey(key) && Trimmed(value) && Blank(a) && Blank(b) && Blank(c) && Blank(d)
    ensures ArmFields(lines + [a + (key + b + "=" + (c + value)) + d]) == ArmFields(lines)[key := value]
  {
    var line := key + b + "=" + (c + value);
    var text := a + line + d;
    assert line[0] == key[0] && line[|line| - 1] == value[|value| - 1];
    StripPadded(a, line, d);
    NoEqualsIn(key, b);
    StripPaddedKey(key, b);
    StripPaddedKey(value, c);
    hide Strip, ArmLine;
    LineSides(ArmFields(lines), text, key + b, c + value);
    assert (lines + [text])[..|lines|] == lines;
  }

  // ---- the lines on file ------------------------------------------------------------------

  /** The operator wrote these lines last, and no transfer has used them up. */
  ghost predicate OnFile(r: Rule, cfg: Config, steps: seq<Step>, lines: seq<string>) {
    exists i :: 0 <= i < |steps| && steps[i] == OperatorArms(lines)
                && forall k :: i < k < |steps| ==> !steps[k].OperatorArms? && !Burns(Run(r, cfg, steps[..k]), steps[k])
  }

  lemma OnFileIff(r: Rule, cfg: Config, steps: seq<Step>, lines: seq<string>)
    requires r.arm == None
    ensures OnFile(r, cfg, steps, lines) <==> Run(r, cfg, steps).arm == Some(lines)
  {
    hide Run, Burns;
    ArmIsOnFile(r, cfg, steps);
    var i := ArmingOnFile(r, cfg, steps);
    forall k | 0 <= i < k < |steps| ensures !steps[k].OperatorArms? && !Burns(Run(r, cfg, steps[..k]), steps[k]) {
      NothingSinceArming(r, cfg, steps, k);
    }
    if OnFile(r, cfg, steps, lines) {
      var j :| 0 <= j < |steps| && steps[j] == OperatorArms(lines)
               && forall k :: j < k < |steps| ==> !steps[k].OperatorArms? && !Burns(Run(r, cfg, steps[..k]), steps[k]);
      LastIsOnFile(r, cfg, steps, j);
    }
  }

  lemma {:induction false} LastIsOnFile(r: Rule, cfg: Config, steps: seq<Step>, j: nat)
    requires r.arm == None && j < |steps| && steps[j].OperatorArms?
    requires forall k :: j < k < |steps| ==> !steps[k].OperatorArms? && !Burns(Run(r, cfg, steps[..k]), steps[k])
    ensures ArmingOnFile(r, cfg, steps) == j
  {
    hide Run, Burns;
    if j < |steps| - 1 {
      var init := steps[..|steps| - 1];
      assert forall k :: 0 <= k < |init| ==> init[k] == steps[k] && init[..k] == steps[..k];
      LastIsOnFile(r, cfg, init, j);
    }
  }

  // ---- theorem: exactly which requests are served -------------------------------------------

  /** The configured target, and nobody who is denied. */
  predicate FromTarget(cfg: Config, req: Request) {
    && cfg.targetIp != "" && cfg.targetOrigin != ""
    && req.ip == cfg.targetIp && req.ip !in cfg.denyIps && Strip(req.originHeader.GetOr("")) !in cfg.denyOrigins
  }

  lemma {:induction false} BeforeQueryPrefix(path: string, prefix: string)
    requires '?' !in prefix
    ensures prefix <= path <==> prefix <= BeforeQuery(path)
  {
    if prefix != "" && path != "" && path[0] == prefix[0] {
      BeforeQueryPrefix(path[1..], prefix[1..]);
      assert prefix <= path <==> prefix[1..] <= path[1..];
      assert BeforeQuery(path)[1..] == BeforeQuery(path[1..]);
      assert prefix <= BeforeQuery(path) <==> prefix[1..] <= BeforeQuery(path)[1..];
    }
  }

  lemma {:induction false} QueryIsDropped(path: string, query: string)
    requires '?' !in path && (query == "" || query[0] == '?')
    ensures BeforeQuery(path + query) == path
  {
    if path == "" {
      assert path + query == query;
    } else {
      assert (path + query)[1..] == path[1..] + query;
      QueryIsDropped(path[1..], query);
    }
  }

  const VERSION_CHECK := "/mef/updateVersionCheck/firmware/"

  const FIRMWARE_GET := "/mef/firmware"

  lemma PrefixesHaveNoQuery()
    ensures '?' !in VERSION_CHECK && '?' !in FIRMWARE_GET
  {
  }

  lemma Dispatched(r: Rule, cfg: Config, req: Request)
    ensures var path := BeforeQuery(req.path);
            Answer(r, cfg, req)
            == if VERSION_CHECK <= req.path then VersionCheck(r, cfg, req)
               else if FIRMWARE_GET <= req.path then FirmwareGet(r, cfg, req, path)
               else (r, NotOta)
  {
    hide BeforeQuery, VersionCheck, FirmwareGet;
    PrefixesHaveNoQuery();
    BeforeQueryPrefix(req.path, VERSION_CHECK);
    BeforeQueryPrefix(req.path, FIRMWARE_GET);
  }

  /** In every run, a version check is answered with the version and the name of the ARM file exactly if it is a GET
      of the target under both its address and its origin, the file the operator wrote last is complete, in time and
      matches the image, no full transfer has been recorded since an offer, and the progress can be written;
      every other one is refused. An offer is what the progress then says; a refusal changes nothing. */
  lemma OfferedIff(r: Rule, cfg: Config, steps: seq<Step>, req: Request, lines: seq<string>)
    requires r.arm == None && OnFile(r, cfg, steps, lines) && VERSION_CHECK <= req.path
    ensures var s, fields := Run(r, cfg, steps), ArmFields(lines);
            if && FromTarget(cfg, req) && Strip(req.originHeader.GetOr("")) == cfg.targetOrigin && req.verb == "GET"
               && Current(s).phase != Some(Spent) && Ready(cfg, fields, req.fs, req.now) && req.writable
            then
              var offer := Some(Offer(cfg.targetIp, cfg.targetOrigin, req.now));
              Answer(s, cfg, req) == (s.(progress := Some(Progress(Some(Offered), offer, None)), lastOffer := offer),
                                      OfferUpdate(fields["offer_version"], fields["fwnnam"]))
            else Answer(s, cfg, req) == (s, Block)
  {
    var s := Run(r, cfg, steps);
    OnFileIff(r, cfg, steps, lines);
    Dispatched(s, cfg, req);
    ReadyIsArmed(cfg, lines, req.fs, req.now);
    hide Run, ArmFields, Ready, Armed, ImageMatches, BeforeQuery, OnFile, Strip;
  }

  /** One of the two paths made of the version and the name. */
  predicate IsDownloadPath(fields: Arm, path: string)
    requires "offer_version" in fields && "fwnnam" in fields
  {
    var v, n := fields["offer_version"], fields["fwnnam"];
    path == "/mef/firmware" + v + "/" + n || path == "/mef/firmware/MTAP/20/D/" + v + "/" + n
  }

  /** An offer to the target is on file, no full transfer has been recorded since, and the request comes under the
      target's origin, or without one within 120 seconds of the offer. */
  predicate FollowsOffer(s: Rule, cfg: Config, req: Request) {
    && Current(s).offer.Some?
    && (Current(s).phase == Some(Offered) || Current(s).phase == Some(Transferring))
    && Current(s).offer.value.ip == cfg.targetIp && Current(s).offer.value.origin == cfg.targetOrigin
    && var origin := Strip(req.originHeader.GetOr(""));
       origin == cfg.targetOrigin || (origin == "" && req.now - Current(s).offer.value.epoch <= 120.0)
  }

  lemma StreamsToIff(s: Rule, cfg: Config, req: Request, lines: seq<string>, path: string)
    requires s.arm == Some(lines)
    ensures var fields := ArmFields(lines);
            StreamsTo(s, cfg, req, path)
            <==> && FromTarget(cfg, req) && req.verb == "GET" && Ready(cfg, fields, req.fs, req.now)
                 && IsDownloadPath(fields, path) && FollowsOffer(s, cfg, req) && req.fs.size(fields["fwr"]).Some?
  {
    ReadyIsArmed(cfg, lines, req.fs, req.now);
    hide ArmFields, Complete, ImageThere, InTime, ImageMatches, ArmLine, Strip, IsSha256, IsVersion, IsFirmwareName, Passed;
    if Armed(cfg, s.arm, req.fs, req.now) {
      assert "offer_version" in REQUIRED && "fwnnam" in REQUIRED && "fwr" in REQUIRED;
    }
  }

  /** In every run, a download is served exactly if it is a GET of one of the two paths made of the version and the
      name of the ARM file, whatever query follows it, the file is complete, in time and matches the image, an offer to
      the target is on file and no full transfer recorded, and it comes from the target under its origin -- or, without
      an origin, within 120 seconds of that offer; every other one is refused. The offer stays on file for the
      transfer. */
  lemma StreamedIff(r: Rule, cfg: Config, steps: seq<Step>, req: Request, lines: seq<string>, path: string, query: string)
    requires r.arm == None && OnFile(r, cfg, steps, lines)
    requires req.path == path + query && '?' !in path && (query == "" || query[0] == '?')
    requires FIRMWARE_GET <= path && !(VERSION_CHECK <= path)
    ensures var s, fields := Run(r, cfg, steps), ArmFields(lines);
            if && FromTarget(cfg, req) && req.verb == "GET" && Ready(cfg, fields, req.fs, req.now)
               && IsDownloadPath(fields, path) && FollowsOffer(s, cfg, req) && req.fs.size(fields["fwr"]).Some?
               && req.writable
            then
              var transfer := Transfer(0, req.fs.size(fields["fwr"]).value);
              Answer(s, cfg, req)
              == (s.(progress := Some(Progress(Some(Transferring), Current(s).offer, Some(transfer))),
                     streams := s.streams + {s.issued}, issued := s.issued + 1),
                  Stream(s.issued))
            else Answer(s, cfg, req) == (s, Block)
  {
    hide Run, ArmFields, FirmwareGet, BeforeQuery, OnFile, FromTarget, Answer, IsDownloadPath, FollowsOffer, Strip;
    hide Complete, ImageThere, InTime;
    var s := Run(r, cfg, steps);
    OnFileIff(r, cfg, steps, lines);
    QueryIsDropped(path, query);
    PrefixesHaveNoQuery();
    BeforeQueryPrefix(req.path, VERSION_CHECK);
    BeforeQueryPrefix(req.path, FIRMWARE_GET);
    Dispatched(s, cfg, req);
    DownloadAnswer(s, cfg, req, lines, path);
  }

  lemma DownloadAnswer(s: Rule, cfg: Config, req: Request, lines: seq<string>, path: string)
    requires s.arm == Some(lines)
    ensures var fields := ArmFields(lines);
            if && FromTarget(cfg, req) && req.verb == "GET" && Ready(cfg, fields, req.fs, req.now)
               && IsDownloadPath(fields, path) && FollowsOffer(s, cfg, req) && req.fs.size(fields["fwr"]).Some?
               && req.writable
            then
              var transfer := Transfer(0, req.fs.size(fields["fwr"]).value);
              FirmwareGet(s, cfg, req, path)
              == (s.(progress := Some(Progress(Some(Transferring), Current(s).offer, Some(transfer))),
                     streams := s.streams + {s.issued}, issued := s.issued + 1),
                  Stream(s.issued))
            else FirmwareGet(s, cfg, req, path) == (s, Block)
  {
    StreamsToIff(s, cfg, req, lines, path);
    hide ArmFields, StreamsTo, FromTarget, Complete, ImageThere, InTime, IsDownloadPath, FollowsOffer, Current, Strip;
  }

  /** So an ARM file is served from strictly before its expiry only, in every run. */
  lemma ServedInTime(r: Rule, cfg: Config, steps: seq<Step>, req: Request, lines: seq<string>)
    requires r.arm == None && OnFile(r, cfg, steps, lines)
    requires var response := Answer(Run(r, cfg, steps), cfg, req).1; response.OfferUpdate? || response.Stream?
    ensures var fields := ArmFields(lines);
            && "expires_epoch" in fields && req.fs.moment(fields["expires_epoch"]).Some?
            && match req.fs.moment(fields["expires_epoch"]).value
               case At(t) => req.now < t
               case Never => true
               case Always => false
  {
    var s := Run(r, cfg, steps);
    OnFileIff(r, cfg, steps, lines);
    OnlyTheTargetIsServed(s, cfg, req);
    ServedIsReady(s, cfg, req);
    ReadyIsArmed(cfg, lines, req.fs, req.now);
    hide Run, ArmFields, Answer, Armed, ImageMatches, ImageThere, OnFile, ArmValid;
  }

  lemma ServedIsReady(s: Rule, cfg: Config, req: Request)
    requires var response := Answer(s, cfg, req).1; response.OfferUpdate? || response.Stream?
    ensures s.arm.Some? && Armed(cfg, s.arm, req.fs, req.now) && ImageMatches(ArmFields(s.arm.value), req.fs)
  {
    hide ArmFields, ImageMatches, ArmValid;
  }

  // ---- the end of a transfer ------------------------------------------------------------------

  /** When an open transfer ends and the progress can be written, it is recorded as a full one exactly if a non-empty
      image was sent completely; the ARM file then goes away if it can be renamed. Nothing else changes. */
  lemma TransferEnds(r: Rule, f: Finish)
    requires f.id in r.streams && f.writable
    ensures var s, full := StreamDone(r, f), f.filesize > 0 && f.sent == f.filesize;
            && s.streams == r.streams - {f.id} && s.issued == r.issued && s.lastOffer == r.lastOffer
            && s.progress.Some? && s.progress.value.transfer == Some(Transfer(f.sent, f.filesize))
            && s.progress.value.offer == Current(r).offer
            && s.progress.value.phase == Some(if full then Spent else Transferring)
            && s.arm == (if full && f.renamable then None else r.arm)
            && s.completed == r.completed + if full then 1 else 0
  {
  }
}
