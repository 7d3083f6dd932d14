/** The sticky client_id -> MAC memory and its file (bridge/mttl_ha_bridge.py, SlugMap and _resolve_mac). */
module StickyIdentity {
  import opened Options
  import opened MacIdentity

  /** The file cell. Any text that is not the expected JSON object loads as nothing. */
  datatype FileCell = Unreadable | Bindings(entries: map<string, string>)

  function Load(file: FileCell): (m: map<string, string>)
    ensures forall cid :: cid in m ==> Canonical(m[cid])
  {
    match file
    case Unreadable => map[]
    case Bindings(entries) =>
      var m := map cid | cid in entries && CleanMac(Some(entries[cid])).Some? :: CleanMac(Some(entries[cid])).value;
      assert forall cid :: cid in m ==> Canonical(m[cid]) by {
        forall cid | cid in m ensures Canonical(m[cid]) { CleanMacCanonical(Some(entries[cid])); }
      }
      m
  }

  /** What a process remembers, and what is on disk. */
  datatype Ids = Ids(memory: map<string, string>, file: FileCell)

  /** The entry fields in which a device may present its MAC, in the order they are tried. */
  datatype Claim = Claim(mac: Option<string>, deviceId: Option<string>)

  function FirstCleanMac(claim: Claim): Option<string> {
    if CleanMac(claim.mac).Some? then CleanMac(claim.mac) else CleanMac(claim.deviceId)
  }

  function Save(ids: Ids, writable: bool): Ids {
    if writable then ids.(file := Bindings(ids.memory)) else ids
  }

  function Learning(ids: Ids, cid: string, mac: Option<string>, writable: bool): Ids {
    var c := CleanMac(mac);
    if c == None || cid == "" || cid in ids.memory then ids
    else Save(ids.(memory := ids.memory[cid := c.value]), writable)
  }

  function Sticky(ids: Ids, cid: string): Option<string> {
    if cid in ids.memory then Some(ids.memory[cid]) else None
  }

  /** The identity _resolve_mac answers with. */
  function Resolved(ids: Ids, cid: string, claim: Claim): Option<string> {
    if cid in ids.memory then Some(ids.memory[cid]) else FirstCleanMac(claim)
  }

  /** The memory and file _resolve_mac leaves. */
  function Resolving(ids: Ids, cid: string, claim: Claim, writable: bool): Ids {
    if cid in ids.memory then ids else Learning(ids, cid, FirstCleanMac(claim), writable)
  }

  // ---- the classes ----------------------------------------------------------

  class SlugFile {
    var content: FileCell
    constructor (content: FileCell)
      ensures this.content == content
    {
      this.content := content;
    }
  }

  class SlugMap {
    const file: SlugFile
    var bindings: map<string, string>

    function View(): Ids
      reads this, file
    {
      Ids(bindings, file.content)
    }

    constructor (file: SlugFile)
      ensures this.file == file
      ensures View() == Ids(Load(file.content), file.content)
    {
      this.file := file;
      bindings := Load(file.content);
    }

    method Learn(cid: string, mac: Option<string>, writable: bool) returns (learned: bool)
      modifies this, file
      ensures View() == Learning(old(View()), cid, mac, writable)
      ensures learned <==> old(cid !in bindings) && cid in bindings
    {
      var c := CleanMac(mac);
      if c == None || cid == "" {
        return false;
      }
      if cid in bindings {
        return false;
      }
      bindings := bindings[cid := c.value];
      if writable {
        file.content := Bindings(bindings);
      }
      return true;
    }

    method ResolveMac(cid: string, claim: Claim, writable: bool) returns (mac: Option<string>)
      modifies this, file
      ensures mac == Resolved(old(View()), cid, claim)
      ensures View() == Resolving(old(View()), cid, claim, writable)
    {
      var sticky := Sticky(View(), cid);
      var candidates := [claim.mac, claim.deviceId];
      var i := 0;
      while i < 2
        invariant 0 <= i <= 2
        invariant View() == old(View())
        invariant forall k :: 0 <= k < i ==> CleanMac(candidates[k]) == None
      {
        var c := CleanMac(candidates[i]);
        if c.Some? {
          CleanMacCanonical(candidates[i]);
          CleanMacFixed(c.value);
          assert c == FirstCleanMac(claim) by {
            assert i == 0 || (i == 1 && CleanMac(candidates[0]) == None);
          }
          if sticky == None {
            var _ := Learn(cid, c, writable);
            return c;
          }
          if c != sticky {
            var _ := Learn(cid, c, writable);
          }
          return sticky;
        }
        i := i + 1;
      }
      assert CleanMac(candidates[0]) == CleanMac(candidates[1]) == None;
      return sticky;
    }
  }

  // ---- runs and restarts ----------------------------------------------------

  datatype IdStep =
    | Resolve(cid: string, claim: Claim, writable: bool)
    | Restart

  function DoStep(ids: Ids, step: IdStep): Ids {
    match step
    case Resolve(cid, claim, writable) => Resolving(ids, cid, claim, writable)
    case Restart => ids.(memory := Load(ids.file))
  }

  function Run(ids: Ids, steps: seq<IdStep>): Ids
    decreases |steps|
  {
    if steps == [] then ids else Run(DoStep(ids, steps[0]), steps[1..])
  }

  /** Every process starts by loading the file; after that memory only grows. */
  ghost predicate Consistent(ids: Ids) {
    && (forall cid :: cid in ids.memory ==> Canonical(ids.memory[cid]))
    && Extends(Load(ids.file), ids.memory)
  }

  ghost predicate Extends(small: map<string, string>, large: map<string, string>) {
    forall cid :: cid in small ==> cid in large && large[cid] == small[cid]
  }

  /** Loading a saved map gives the map back, exactly. */
  lemma LoadAfterSave(memory: map<string, string>)
    requires forall cid :: cid in memory ==> Canonical(memory[cid])
    ensures Load(Bindings(memory)) == memory
  {
    forall cid | cid in memory ensures CleanMac(Some(memory[cid])) == Some(memory[cid]) {
      CleanMacFixed(memory[cid]);
    }
  }

  lemma FirstCleanMacCanonical(claim: Claim)
    ensures FirstCleanMac(claim).Some? ==>
              Canonical(FirstCleanMac(claim).value) && CleanMac(FirstCleanMac(claim)) == FirstCleanMac(claim)
  {
    CleanMacCanonical(claim.mac);
    CleanMacCanonical(claim.deviceId);
    if FirstCleanMac(claim).Some? {
      CleanMacFixed(FirstCleanMac(claim).value);
    }
  }

  /** One step keeps the disk below the memory, keeps what the disk binds, and, unless it is a
      restart, keeps what the memory binds. */
  lemma StepKeeps(ids: Ids, step: IdStep)
    requires Consistent(ids)
    ensures Consistent(DoStep(ids, step))
    ensures Extends(Load(ids.file), Load(DoStep(ids, step).file))
    ensures step.Resolve? ==> Extends(ids.memory, DoStep(ids, step).memory)
  {
    if step.Resolve? && step.cid !in ids.memory {
      FirstCleanMacCanonical(step.claim);
      var next := DoStep(ids, step);
      assert Extends(ids.memory, next.memory);
      if next.file != ids.file {
        LoadAfterSave(next.memory);
      }
    }
  }

  /** Disk bindings are always a subset of memory, over any run with any failed saves and restarts,
      and a binding that is once on disk stays there unchanged. */
  lemma {:induction false} DiskBindingsSurvive(ids: Ids, steps: seq<IdStep>)
    requires Consistent(ids)
    ensures Consistent(Run(ids, steps))
    ensures Extends(Load(ids.file), Load(Run(ids, steps).file))
    decreases |steps|
  {
    if steps != [] {
      StepKeeps(ids, steps[0]);
      DiskBindingsSurvive(DoStep(ids, steps[0]), steps[1..]);
    }
  }

  /** Every process starts consistent, whatever the file holds. */
  lemma FreshProcessConsistent(file: FileCell)
    ensures Consistent(Ids(Load(file), file))
  {
  }

  ghost predicate SameProcess(steps: seq<IdStep>) {
    forall i :: 0 <= i < |steps| ==> steps[i].Resolve?
  }

  lemma {:induction false} MemoryBindingsSurvive(ids: Ids, steps: seq<IdStep>)
    requires Consistent(ids) && SameProcess(steps)
    ensures Extends(ids.memory, Run(ids, steps).memory)
    decreases |steps|
  {
    if steps != [] {
      StepKeeps(ids, steps[0]);
      MemoryBindingsSurvive(DoStep(ids, steps[0]), steps[1..]);
    }
  }

  /** Within one process: once a non-empty client_id has resolved to a MAC, every later answer for it
      is that MAC, whatever it claims then and whatever happened in between. */
  lemma StickyWithinProcess(ids: Ids, first: IdStep, between: seq<IdStep>, later: Claim)
    requires Consistent(ids) && first.Resolve? && first.cid != "" && SameProcess(between)
    requires Resolved(ids, first.cid, first.claim).Some?
    ensures Resolved(Run(DoStep(ids, first), between), first.cid, later) == Resolved(ids, first.cid, first.claim)
  {
    FirstCleanMacCanonical(first.claim);
    StepKeeps(ids, first);
    MemoryBindingsSurvive(DoStep(ids, first), between);
  }

  /** Across restarts: a binding that is on disk answers for its client_id for ever. */
  lemma StickyAcrossRestarts(ids: Ids, cid: string, steps: seq<IdStep>, later: Claim)
    requires Consistent(ids) && cid in Load(ids.file)
    ensures Resolved(Run(ids, steps), cid, later) == Some(Load(ids.file)[cid])
  {
    DiskBindingsSurvive(ids, steps);
  }

  /** While the store is writable and was in step, it stays in step, so nothing is ever forgotten. */
  lemma {:induction false} WritableStoreForgetsNothing(ids: Ids, steps: seq<IdStep>)
    requires Consistent(ids) && ids.memory == Load(ids.file)
    requires forall i :: 0 <= i < |steps| && steps[i].Resolve? ==> steps[i].writable
    ensures Run(ids, steps).memory == Load(Run(ids, steps).file)
    ensures Extends(ids.memory, Run(ids, steps).memory)
    decreases |steps|
  {
    hide DoStep, Load;
    if steps != [] {
      StepKeeps(ids, steps[0]);
      WritableStep(ids, steps[0]);
      WritableStoreForgetsNothing(DoStep(ids, steps[0]), steps[1..]);
    }
  }

  lemma WritableStep(ids: Ids, step: IdStep)
    requires Consistent(ids) && ids.memory == Load(ids.file) && (step.Resolve? ==> step.writable)
    ensures var next := DoStep(ids, step); next.memory == Load(next.file) && Extends(ids.memory, next.memory)
  {
    StepKeeps(ids, step);
    if DoStep(ids, step) != ids {
      LoadAfterSave(DoStep(ids, step).memory);
    }
  }

  /** A binding survives a restart exactly when it had reached the disk. */
  lemma RestartKeepsExactlyTheDisk(ids: Ids, cid: string)
    requires Consistent(ids) && cid in ids.memory
    ensures Sticky(DoStep(ids, Restart), cid) == Sticky(ids, cid) <==> cid in Load(ids.file)
  {
  }

  /** The empty client_id is never learned: nothing resolved for it changes memory or file, and its answers
      follow each claim, exactly unless the file it was started from has a binding for it. */
  lemma EmptyClientIdIsNotSticky(ids: Ids, writable: bool)
    ensures forall claim :: DoStep(ids, Resolve("", claim, writable)) == ids
    ensures (forall claim :: Resolved(ids, "", claim) == FirstCleanMac(claim)) <==> "" !in ids.memory
  {
    if "" in ids.memory {
      assert Resolved(ids, "", Claim(None, None)) != FirstCleanMac(Claim(None, None));
    }
  }

  /** A device that is not remembered is known by the mac it presents if that is one, else by its device_id. */
  lemma MacComesFirst(ids: Ids, cid: string, mac: Option<string>, deviceId: string)
    requires cid !in ids.memory && Canonical(deviceId)
    ensures mac.Some? && Canonical(mac.value) ==> Resolved(ids, cid, Claim(mac, Some(deviceId))) == mac
    ensures CleanMac(mac) == None ==> Resolved(ids, cid, Claim(mac, Some(deviceId))) == Some(deviceId)
    ensures Resolved(ids, cid, Claim(None, None)) == None
  {
    if mac.Some? && Canonical(mac.value) {
      CleanMacFixed(mac.value);
    }
    CleanMacFixed(deviceId);
  }

  /** No identity the bridge acts on is a hash slug. */
  lemma ResolvedSlugIsMac(ids: Ids, cid: string, claim: Claim, sha256: string -> Digest)
    requires Consistent(ids) && Resolved(ids, cid, claim).Some?
    ensures Canonical(Resolved(ids, cid, claim).value)
    ensures DeviceSlug(cid, Resolved(ids, cid, claim), sha256) == Resolved(ids, cid, claim).value
  {
    FirstCleanMacCanonical(claim);
    CleanMacFixed(Resolved(ids, cid, claim).value);
  }
}
