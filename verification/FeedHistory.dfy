/** What the stored entries owe to the observations: for each part of an entry of each reachable store, which of the
    recorded observations it comes from (relay/rules/10-dashboard-feed.py). */
module FeedHistory {
  import opened Options
  import opened DeviceEntry
  import opened FeedStore

  // ---- where an observation is recorded, and where its record goes -----------------------

  /** The key an observation is recorded under. */
  function Target(o: Observation): string {
    if o.client != "" then o.client else o.pick.GetOr(IpKey(o.ip))
  }

  /** Where an observation takes what is recorded under a key: a client takes over its address's entry. */
  function Moved(key: string, o: Observation): string {
    if o.saved && o.client != "" && key == IpKey(o.ip) then o.client else key
  }

  /** The key under which what the first of some observations recorded is found after all of them. */
  function Holder(observations: seq<Observation>): string
    requires observations != []
  {
    if |observations| == 1 then Target(observations[0])
    else Moved(Holder(observations[..|observations| - 1]), observations[|observations| - 1])
  }

  /** The entry an observation finds under its key, together with the temporary one a client takes over. */
  function Found(s: Store, o: Observation): Entry {
    var own := if Target(o) in s then s[Target(o)] else NEW_ENTRY;
    if o.client != "" && IpKey(o.ip) in s then Merge(own, s[IpKey(o.ip)]) else own
  }

  /** An entry found, marked with address and client_id, and updated. */
  function Updated(e: Entry, u: Update, client: string, ip: string): Entry {
    Apply(Stamp(e, client, ip), u)
  }

  lemma FedEntry(s: Store, o: Observation, key: string)
    requires !IsPseudo(o.client) && (o.client == "" ==> ValidPick(s, o.ip, o.pick))
    ensures var fed := Fed(s, o.client, o.ip, o.update, o.pick);
            if key == Target(o) then key in fed && fed[key] == Updated(Found(s, o), o.update, o.client, o.ip)
            else if o.client != "" && key == IpKey(o.ip) then key !in fed
            else (key in fed <==> key in s) && (key in s ==> fed[key] == s[key])
  {
    hide Apply, Merge, Stamp;
  }

  /** One observation, key by key. */
  lemma ObservedEntry(s: Store, o: Observation, key: string)
    requires Deduplicated(s) && !IsPseudo(o.client)
    requires o.client == "" ==> ValidPick(Loaded(s, o.loaded), o.ip, o.pick)
    ensures var base, next := Loaded(s, o.loaded), Observe(s, o);
            if !o.saved then next == s
            else if key == Target(o) then key in next && next[key] == Updated(Found(base, o), o.update, o.client, o.ip)
            else if o.client != "" && key == IpKey(o.ip) then key !in next
            else (key in next <==> key in base) && (key in base ==> next[key] == base[key])
  {
    hide Fed, Target, Deduplicated, Updated, Found;
    if o.saved {
      NothingIsDeduplicated();
      PruneRemovesNothing(Loaded(s, o.loaded), o.client, o.ip, o.update, o.pick);
      FedEntry(Loaded(s, o.loaded), o, key);
    }
  }

  // ---- marks: what an entry has once something was recorded --------------------------------

  /** The k-th observation raised the mark, and its record is now under the key, no unreadable file having been
      written over since. */
  ghost predicate RaisedBy(observations: seq<Observation>, key: string, raises: Update -> bool, k: nat) {
    && k < |observations| && observations[k].saved && raises(observations[k].update) && Holder(observations[k..]) == key
    && forall m :: k < m < |observations| ==> !Wipes(observations[m])
  }

  /** The mark was raised for the key, or for the temporary entry that the key has taken over. */
  ghost predicate RaisedUnder(observations: seq<Observation>, key: string, raises: Update -> bool) {
    exists k :: RaisedBy(observations, key, raises, k)
  }

  lemma RaisedByStep(observations: seq<Observation>, key: string, raises: Update -> bool, k: nat)
    requires observations != [] && k < |observations|
    ensures var n := |observations| - 1;
            var init, last := observations[..n], observations[n];
            RaisedBy(observations, key, raises, k)
            <==> if k == n then last.saved && raises(last.update) && Target(last) == key
                 else RaisedBy(init, Holder(init[k..]), raises, k) && !Wipes(last) && Moved(Holder(init[k..]), last) == key
  {
    hide Wipes, Target, Moved;
    var n := |observations| - 1;
    var init, last := observations[..n], observations[n];
    if k == n {
      assert observations[n..] == [last];
    } else {
      assert observations[k..][..|observations[k..]| - 1] == init[k..];
      assert forall m :: k <= m < n ==> observations[m] == init[m];
    }
  }

  lemma RaisedUnderStep(observations: seq<Observation>, key: string, raises: Update -> bool)
    requires observations != []
    ensures var n := |observations| - 1;
            var init, last := observations[..n], observations[n];
            RaisedUnder(observations, key, raises)
            <==> || (key == Target(last) && last.saved && raises(last.update))
                 || (!Wipes(last) && exists h :: RaisedUnder(init, h, raises) && Moved(h, last) == key)
  {
    hide Wipes, Target, Moved, RaisedBy, Holder;
    var n := |observations| - 1;
    var init, last := observations[..n], observations[n];
    RaisedByStep(observations, key, raises, n);
    forall h, k: nat | RaisedBy(init, h, raises, k) && !Wipes(last) && Moved(h, last) == key
      ensures RaisedBy(observations, key, raises, k)
    {
      HolderOf(init, h, raises, k);
      RaisedByStep(observations, key, raises, k);
    }
    forall k: nat | k < n && RaisedBy(observations, key, raises, k)
      ensures !Wipes(last) && RaisedUnder(init, Holder(init[k..]), raises) && Moved(Holder(init[k..]), last) == key
    {
      RaisedByStep(observations, key, raises, k);
    }
    forall k: nat | RaisedBy(observations, key, raises, k) ensures k <= n {
      HolderOf(observations, key, raises, k);
    }
  }

  lemma HolderOf(observations: seq<Observation>, key: string, raises: Update -> bool, k: nat)
    requires RaisedBy(observations, key, raises, k)
    ensures k < |observations| && Holder(observations[k..]) == key
  {
  }

  /** Only an update that raises the mark gives it to an entry. */
  ghost predicate Traces(has: Entry -> bool, raises: Update -> bool) {
    && !has(NEW_ENTRY)
    && (forall a, b {:trigger Merge(a, b)} :: has(Merge(a, b)) ==> has(a) || has(b))
    && (forall e: Entry, u, client, ip {:trigger Updated(e, u, client, ip)} ::
          !e.firstSeen.Absent? && has(Updated(e, u, client, ip)) ==> has(e) || raises(u))
  }

  /** No update, and no merging, takes it away. */
  ghost predicate Sticks(has: Entry -> bool, raises: Update -> bool) {
    && (forall a, b {:trigger Merge(a, b)} :: has(a) || has(b) ==> has(Merge(a, b)))
    && (forall e: Entry, u, client, ip {:trigger Updated(e, u, client, ip)} ::
          !e.firstSeen.Absent? && (has(e) || raises(u)) ==> has(Updated(e, u, client, ip)))
  }

  predicate Marked(s: Store, key: string, has: Entry -> bool) {
    key in s && has(s[key])
  }

  lemma FoundTraces(s: Store, o: Observation, has: Entry -> bool, raises: Update -> bool)
    requires HasFirstSeen(s) && Traces(has, raises) && has(Updated(Found(s, o), o.update, o.client, o.ip))
    ensures raises(o.update) || Marked(s, Target(o), has) || (o.client != "" && Marked(s, IpKey(o.ip), has))
  {
    hide MergeNames, Updated;
    var own := if Target(o) in s then s[Target(o)] else NEW_ENTRY;
    assert !own.firstSeen.Absent?;
    assert has(Found(s, o)) || raises(o.update);
  }

  lemma FoundSticks(s: Store, o: Observation, has: Entry -> bool, raises: Update -> bool)
    requires HasFirstSeen(s) && Sticks(has, raises)
    requires raises(o.update) || Marked(s, Target(o), has) || (o.client != "" && Marked(s, IpKey(o.ip), has))
    ensures has(Updated(Found(s, o), o.update, o.client, o.ip))
  {
    hide MergeNames, Updated;
    var own := if Target(o) in s then s[Target(o)] else NEW_ENTRY;
    assert !own.firstSeen.Absent?;
    assert !Found(s, o).firstSeen.Absent?;
    assert has(Found(s, o)) || raises(o.update);
  }

  /** One observation, as it bears on a mark. */
  lemma MarkedStep(s: Store, o: Observation, key: string, has: Entry -> bool, raises: Update -> bool)
    requires Deduplicated(s) && HasFirstSeen(s) && !IsPseudo(o.client)
    requires o.client == "" ==> ValidPick(Loaded(s, o.loaded), o.ip, o.pick)
    ensures Traces(has, raises) && Marked(Observe(s, o), key, has) ==>
              || (key == Target(o) && o.saved && raises(o.update))
              || (!Wipes(o) && exists h :: Marked(s, h, has) && Moved(h, o) == key)
    ensures Sticks(has, raises)
            && ((key == Target(o) && o.saved && raises(o.update))
                || (!Wipes(o) && exists h :: Marked(s, h, has) && Moved(h, o) == key))
            ==> Marked(Observe(s, o), key, has)
  {
    hide Deduplicated, Observe, Updated, Found, Traces, Sticks, ValidPick;
    ObservedEntry(s, o, key);
    var base := Loaded(s, o.loaded);
    assert Moved(key, o) == key || (o.saved && o.client != "" && key == IpKey(o.ip));
    if o.saved && key == Target(o) {
      assert Moved(key, o) == key by { TargetStays(o); }
      if Traces(has, raises) && Marked(Observe(s, o), key, has) {
        FoundTraces(base, o, has, raises);
        if !raises(o.update) {
          var h := if Marked(base, key, has) then key else IpKey(o.ip);
          assert Marked(s, h, has) && Moved(h, o) == key;
        }
      }
      if Sticks(has, raises) && (raises(o.update) || (!Wipes(o) && exists h :: Marked(s, h, has) && Moved(h, o) == key)) {
        if !raises(o.update) {
          var h :| Marked(s, h, has) && Moved(h, o) == key;
          assert h == key || (o.client != "" && h == IpKey(o.ip));
        }
        FoundSticks(base, o, has, raises);
      }
    }
  }

  lemma TargetStays(o: Observation)
    requires !IsPseudo(o.client)
    ensures Moved(Target(o), o) == Target(o)
  {
  }

  lemma NoObservations(key: string, raises: Update -> bool)
    ensures !RaisedUnder([], key, raises)
  {
  }

  /** On every reachable store: if nothing but some updates gives a mark, an entry has it only if one of them was
      recorded for it or for the temporary entry it took over; if nothing takes it away, exactly if. */
  lemma {:induction false} MarkedIffRaised(stores: seq<Store>, observations: seq<Observation>, j: nat, key: string,
        has: Entry -> bool, raises: Update -> bool)
    requires IsRun(stores, observations) && RealClients(observations) && stores[0] == map[] && j < |stores|
    ensures Traces(has, raises) && Marked(stores[j], key, has) ==> RaisedUnder(observations[..j], key, raises)
    ensures Sticks(has, raises) && RaisedUnder(observations[..j], key, raises) ==> Marked(stores[j], key, has)
  {
    hide Observe, Marked, RaisedUnder, Deduplicated, HasFirstSeen, Wipes, Target, Moved, Traces, Sticks, ValidPick;
    if j == 0 {
      NoObservations(key, raises);
      NothingMarked(key, has);
    } else {
      var o, n := observations[j - 1], j - 1;
      assert observations[..j][..n] == observations[..n];
      forall h
        ensures Traces(has, raises) && Marked(stores[n], h, has) ==> RaisedUnder(observations[..n], h, raises)
        ensures Sticks(has, raises) && RaisedUnder(observations[..n], h, raises) ==> Marked(stores[n], h, has)
      {
        MarkedIffRaised(stores, observations, n, h, has, raises);
      }
      AlwaysDeduplicated(stores, observations, n);
      SetDefaultIsIdle(stores, observations, n);
      MarkedStep(stores[n], o, key, has, raises);
      RaisedUnderStep(observations[..j], key, raises);
    }
  }

  lemma NothingMarked(key: string, has: Entry -> bool)
    ensures !Marked(map[], key, has)
  {
  }

  // ---- values: the last one recorded --------------------------------------------------------

  /** The last value recorded for the key itself, since the file was last lost and, for a temporary entry, since it was
      last taken over. */
  function LastRecorded<T>(observations: seq<Observation>, key: string, carried: Update -> Option<T>): Option<T> {
    if observations == [] then None
    else
      var init, last := observations[..|observations| - 1], observations[|observations| - 1];
      if last.saved && key == Target(last) && carried(last.update).Some? then carried(last.update)
      else if Wipes(last) || Moved(key, last) != key then None
      else LastRecorded(init, key, carried)
  }

  /** An update that carries the value overrides it, merging prefers the client's own. */
  ghost predicate Overrides<T(!new)>(value: Entry -> Option<T>, carried: Update -> Option<T>) {
    && (forall a, b {:trigger Merge(a, b)} :: value(a).Some? ==> value(Merge(a, b)) == value(a))
    && (forall e: Entry, u, client, ip {:trigger Updated(e, u, client, ip)} ::
          value(Updated(e, u, client, ip)) == if carried(u).Some? then carried(u) else value(e))
  }

  lemma FoundOverrides<T(!new)>(s: Store, o: Observation, value: Entry -> Option<T>, carried: Update -> Option<T>, v: T)
    requires Overrides(value, carried)
    requires if carried(o.update).Some? then carried(o.update) == Some(v)
             else Target(o) in s && value(s[Target(o)]) == Some(v)
    ensures value(Updated(Found(s, o), o.update, o.client, o.ip)) == Some(v)
  {
    hide Merge, Updated;
    assert carried(o.update) == None ==> value(Found(s, o)) == Some(v);
  }

  lemma {:induction false} LastRecordedIsHeld<T(!new)>(stores: seq<Store>, observations: seq<Observation>, j: nat,
        key: string, value: Entry -> Option<T>, carried: Update -> Option<T>)
    requires IsRun(stores, observations) && RealClients(observations) && stores[0] == map[] && j < |stores|
    requires Overrides(value, carried) && LastRecorded(observations[..j], key, carried).Some?
    ensures key in stores[j] && value(stores[j][key]) == LastRecorded(observations[..j], key, carried)
  {
    hide Observe, Deduplicated, Target, Overrides, ValidPick, Found, Updated;
    if j > 0 {
      var o, n := observations[j - 1], j - 1;
      assert observations[..j][..n] == observations[..n];
      AlwaysDeduplicated(stores, observations, n);
      ObservedEntry(stores[n], o, key);
      if !(o.saved && key == Target(o) && carried(o.update).Some?) {
        LastRecordedIsHeld(stores, observations, n, key, value, carried);
      }
      if o.saved && key == Target(o) {
        FoundOverrides(Loaded(stores[n], o.loaded), o, value, carried, LastRecorded(observations[..j], key, carried).value);
      }
    }
  }

  // ---- theorem: telemetry reaches the file -----------------------------------------------------

  /** The value a message carries for a cell. */
  function CarriedCell(cell: (Bucket, string)): Update -> Option<Cell> {
    (u: Update) =>
      if u.Message? && u.delta.Some? && cell in u.delta.value.cells then Some(u.delta.value.cells[cell]) else None
  }

  function CarriedVoltage(): Update -> Option<real> {
    (u: Update) => if u.Message? && u.delta.Some? then u.delta.value.voltage else None
  }

  /** That an update carries something, or carries just this. */
  function CarriesAny<T>(carried: Update -> Option<T>): Update -> bool {
    (u: Update) => carried(u).Some?
  }

  function Carries<T(==)>(carried: Update -> Option<T>, v: T): Update -> bool {
    (u: Update) => carried(u) == Some(v)
  }

  function HasAny<T>(value: Entry -> Option<T>): Entry -> bool {
    (e: Entry) => value(e).Some?
  }

  function HasValue<T(==)>(value: Entry -> Option<T>, v: T): Entry -> bool {
    (e: Entry) => value(e) == Some(v)
  }

  function CellIn(cell: (Bucket, string)): Entry -> Option<Cell> {
    (e: Entry) => CellOf(e, cell)
  }

  function VoltageIn(): Entry -> Option<real> {
    (e: Entry) => e.voltage
  }

  /** Merging prefers the first, and falls back on the second. */
  ghost predicate FallsBack<T(!new)>(value: Entry -> Option<T>) {
    && value(NEW_ENTRY) == None
    && forall a, b {:trigger Merge(a, b)} :: value(Merge(a, b)) == if value(a).Some? then value(a) else value(b)
  }

  lemma ValuesAreMarks<T(!new)>(value: Entry -> Option<T>, carried: Update -> Option<T>, v: T)
    requires FallsBack(value) && Overrides(value, carried)
    ensures Traces(HasAny(value), CarriesAny(carried)) && Sticks(HasAny(value), CarriesAny(carried))
    ensures Traces(HasValue(value, v), Carries(carried, v))
  {
    hide Merge, Updated;
  }

  lemma CellsOverride(cell: (Bucket, string))
    ensures FallsBack(CellIn(cell)) && Overrides(CellIn(cell), CarriedCell(cell))
  {
    hide MergeNames, Identify, Overlay;
  }

  lemma VoltageOverrides()
    ensures FallsBack(VoltageIn()) && Overrides(VoltageIn(), CarriedVoltage())
  {
    hide MergeNames, Identify, Overlay;
  }

  /** On every reachable store a telemetry cell is there exactly if a recorded message carried it, for the key or for
      the temporary entry it took over, since the file was last lost; it holds a value that such a message carried; and
      if one was recorded for the key itself, the last of those. */
  lemma CellIsRecorded(stores: seq<Store>, observations: seq<Observation>, j: nat, key: string, cell: (Bucket, string))
    requires IsRun(stores, observations) && RealClients(observations) && stores[0] == map[] && j < |stores|
    ensures key in stores[j] && cell in stores[j][key].cells
       <==> RaisedUnder(observations[..j], key, CarriesAny(CarriedCell(cell)))
    ensures key in stores[j] && cell in stores[j][key].cells ==>
              RaisedUnder(observations[..j], key, Carries(CarriedCell(cell), stores[j][key].cells[cell]))
    ensures LastRecorded(observations[..j], key, CarriedCell(cell)).Some? ==>
              && key in stores[j] && cell in stores[j][key].cells
              && stores[j][key].cells[cell] == LastRecorded(observations[..j], key, CarriedCell(cell)).value
  {
    hide Traces, Sticks, Overrides, FallsBack, RaisedUnder, LastRecorded, Observe, RealClients;
    CellsOverride(cell);
    ValuesAreMarks(CellIn(cell), CarriedCell(cell), Flag(true));
    MarkedIffRaised(stores, observations, j, key, HasAny(CellIn(cell)), CarriesAny(CarriedCell(cell)));
    if key in stores[j] && cell in stores[j][key].cells {
      var v := stores[j][key].cells[cell];
      ValuesAreMarks(CellIn(cell), CarriedCell(cell), v);
      MarkedIffRaised(stores, observations, j, key, HasValue(CellIn(cell), v), Carries(CarriedCell(cell), v));
    }
    if LastRecorded(observations[..j], key, CarriedCell(cell)).Some? {
      LastRecordedIsHeld(stores, observations, j, key, CellIn(cell), CarriedCell(cell));
    }
  }

  /** So is the voltage. */
  lemma VoltageIsRecorded(stores: seq<Store>, observations: seq<Observation>, j: nat, key: string)
    requires IsRun(stores, observations) && RealClients(observations) && stores[0] == map[] && j < |stores|
    ensures key in stores[j] && stores[j][key].voltage.Some?
       <==> RaisedUnder(observations[..j], key, CarriesAny(CarriedVoltage()))
    ensures key in stores[j] && stores[j][key].voltage.Some? ==>
              RaisedUnder(observations[..j], key, Carries(CarriedVoltage(), stores[j][key].voltage.value))
    ensures LastRecorded(observations[..j], key, CarriedVoltage()).Some? ==>
              key in stores[j] && stores[j][key].voltage == LastRecorded(observations[..j], key, CarriedVoltage())
  {
    hide Traces, Sticks, Overrides, FallsBack, RaisedUnder, LastRecorded, Observe, RealClients;
    VoltageOverrides();
    ValuesAreMarks(VoltageIn(), CarriedVoltage(), 0.0);
    MarkedIffRaised(stores, observations, j, key, HasAny(VoltageIn()), CarriesAny(CarriedVoltage()));
    if key in stores[j] && stores[j][key].voltage.Some? {
      var v := stores[j][key].voltage.value;
      ValuesAreMarks(VoltageIn(), CarriedVoltage(), v);
      MarkedIffRaised(stores, observations, j, key, HasValue(VoltageIn(), v), Carries(CarriedVoltage(), v));
    }
    if LastRecorded(observations[..j], key, CarriedVoltage()).Some? {
      LastRecordedIsHeld(stores, observations, j, key, VoltageIn(), CarriedVoltage());
    }
  }

  // ---- theorem: the marks of an entry ------------------------------------------------------------

  predicate WithTelemetry(u: Update) {
    u.Message? && u.delta.Some?
  }

  predicate WithFullReport(u: Update) {
    u.Message? && u.delta.Some? && u.delta.value.vtpeSeen
  }

  predicate WithContact(u: Update) {
    u.SessionStart? || u.Message?
  }

  predicate WithBootstrap(u: Update) {
    u.MefPost? || (u.Message? && u.delta.Some? && u.delta.value.bootstrap)
  }

  predicate Dated(e: Entry) {
    e.firstSeen.At?
  }

  predicate FullySeen(e: Entry) {
    e.vtpeSeen
  }

  predicate Connected(e: Entry) {
    e.mqttConnected
  }

  predicate Bootstrapped(e: Entry) {
    e.mefSeen
  }

  lemma MergeMarks(a: Entry, b: Entry)
    ensures Dated(Merge(a, b)) <==> Dated(a) || Dated(b)
    ensures FullySeen(Merge(a, b)) <==> FullySeen(a) || FullySeen(b)
    ensures Connected(Merge(a, b)) <==> Connected(a) || Connected(b)
    ensures Bootstrapped(Merge(a, b)) <==> Bootstrapped(a) || Bootstrapped(b)
  {
    hide MergeNames;
  }

  lemma ApplyMarks(e: Entry, u: Update, client: string, ip: string)
    requires !e.firstSeen.Absent?
    ensures Dated(Updated(e, u, client, ip)) <==> Dated(e) || WithTelemetry(u)
    ensures FullySeen(Updated(e, u, client, ip)) <==> FullySeen(e) || WithFullReport(u)
    ensures Connected(Updated(e, u, client, ip)) <==> Connected(e) || WithContact(u)
    ensures Bootstrapped(Updated(e, u, client, ip)) <==> Bootstrapped(e) || WithBootstrap(u)
  {
    hide Identify, Overlay;
  }

  /** A mark that merging and updating treat as a disjunction. */
  lemma IsMark(has: Entry -> bool, raises: Update -> bool)
    requires !has(NEW_ENTRY) && forall a, b {:trigger Merge(a, b)} :: has(Merge(a, b)) <==> has(a) || has(b)
    requires forall e: Entry, u, client, ip {:trigger Updated(e, u, client, ip)} :: !e.firstSeen.Absent? ==>
               (has(Updated(e, u, client, ip)) <==> has(e) || raises(u))
    ensures Traces(has, raises) && Sticks(has, raises)
  {
    hide Merge, Updated;
  }

  lemma DatedIsMark()
    ensures Traces(Dated, WithTelemetry) && Sticks(Dated, WithTelemetry)
  {
    hide Merge, Updated, Traces, Sticks, Dated, FullySeen, Connected, Bootstrapped;
    hide WithTelemetry, WithFullReport, WithContact, WithBootstrap;
    NoMarksYet();
    forall a, b ensures Dated(Merge(a, b)) <==> Dated(a) || Dated(b) {
      MergeMarks(a, b);
    }
    forall e: Entry, u: Update, client: string, ip: string | !e.firstSeen.Absent?
      ensures Dated(Updated(e, u, client, ip)) <==> Dated(e) || WithTelemetry(u)
    {
      ApplyMarks(e, u, client, ip);
    }
    IsMark(Dated, WithTelemetry);
  }

  lemma FullySeenIsMark()
    ensures Traces(FullySeen, WithFullReport) && Sticks(FullySeen, WithFullReport)
  {
    hide Merge, Updated, Traces, Sticks, Dated, FullySeen, Connected, Bootstrapped;
    hide WithTelemetry, WithFullReport, WithContact, WithBootstrap;
    NoMarksYet();
    forall a, b ensures FullySeen(Merge(a, b)) <==> FullySeen(a) || FullySeen(b) {
      MergeMarks(a, b);
    }
    forall e: Entry, u: Update, client: string, ip: string | !e.firstSeen.Absent?
      ensures FullySeen(Updated(e, u, client, ip)) <==> FullySeen(e) || WithFullReport(u)
    {
      ApplyMarks(e, u, client, ip);
    }
    IsMark(FullySeen, WithFullReport);
  }

  lemma ConnectedIsMark()
    ensures Traces(Connected, WithContact) && Sticks(Connected, WithContact)
  {
    hide Merge, Updated, Traces, Sticks, Dated, FullySeen, Connected, Bootstrapped;
    hide WithTelemetry, WithFullReport, WithContact, WithBootstrap;
    NoMarksYet();
    forall a, b ensures Connected(Merge(a, b)) <==> Connected(a) || Connected(b) {
      MergeMarks(a, b);
    }
    forall e: Entry, u: Update, client: string, ip: string | !e.firstSeen.Absent?
      ensures Connected(Updated(e, u, client, ip)) <==> Connected(e) || WithContact(u)
    {
      ApplyMarks(e, u, client, ip);
    }
    IsMark(Connected, WithContact);
  }

  lemma BootstrappedIsMark()
    ensures Traces(Bootstrapped, WithBootstrap) && Sticks(Bootstrapped, WithBootstrap)
  {
    hide Merge, Updated, Traces, Sticks, Dated, FullySeen, Connected, Bootstrapped;
    hide WithTelemetry, WithFullReport, WithContact, WithBootstrap;
    NoMarksYet();
    forall a, b ensures Bootstrapped(Merge(a, b)) <==> Bootstrapped(a) || Bootstrapped(b) {
      MergeMarks(a, b);
    }
    forall e: Entry, u: Update, client: string, ip: string | !e.firstSeen.Absent?
      ensures Bootstrapped(Updated(e, u, client, ip)) <==> Bootstrapped(e) || WithBootstrap(u)
    {
      ApplyMarks(e, u, client, ip);
    }
    IsMark(Bootstrapped, WithBootstrap);
  }

  lemma NoMarksYet()
    ensures !Dated(NEW_ENTRY) && !FullySeen(NEW_ENTRY) && !Connected(NEW_ENTRY) && !Bootstrapped(NEW_ENTRY)
  {
  }

  /** On every reachable store: an entry is dated exactly if telemetry was recorded for it or for the temporary entry it
      took over, since the file was last lost -- bootstraps and session starts never date one; it is marked as having
      sent full telemetry exactly if one such message carried it all; as connected exactly if a session start or any
      message was; and as bootstrapped exactly if a bootstrap was. */
  lemma MarksAreRecorded(stores: seq<Store>, observations: seq<Observation>, j: nat, key: string)
    requires IsRun(stores, observations) && RealClients(observations) && stores[0] == map[] && j < |stores|
    ensures key in stores[j] && stores[j][key].firstSeen.At? <==> RaisedUnder(observations[..j], key, WithTelemetry)
    ensures key in stores[j] && stores[j][key].vtpeSeen <==> RaisedUnder(observations[..j], key, WithFullReport)
    ensures key in stores[j] && stores[j][key].mqttConnected <==> RaisedUnder(observations[..j], key, WithContact)
    ensures key in stores[j] && stores[j][key].mefSeen <==> RaisedUnder(observations[..j], key, WithBootstrap)
  {
    hide Traces, Sticks, RaisedUnder, IsRun, RealClients;
    DatedIsMark();
    FullySeenIsMark();
    ConnectedIsMark();
    BootstrappedIsMark();
    MarkedIffRaised(stores, observations, j, key, Dated, WithTelemetry);
    MarkedIffRaised(stores, observations, j, key, FullySeen, WithFullReport);
    MarkedIffRaised(stores, observations, j, key, Connected, WithContact);
    MarkedIffRaised(stores, observations, j, key, Bootstrapped, WithBootstrap);
  }

  // ---- theorem: sessions are counted --------------------------------------------------------------

  function Larger(a: int, b: int): int {
    if a < b then b else a
  }

  /** The session starts recorded for a key since the file was last lost; a client that takes over a temporary entry
      goes on from the larger of the two numbers. */
  function Sessions(observations: seq<Observation>, key: string): int {
    if observations == [] then 0
    else
      var init, o := observations[..|observations| - 1], observations[|observations| - 1];
      var own := if Wipes(o) then 0 else Sessions(init, key);
      var taken := if Wipes(o) || o.client == "" then 0 else Sessions(init, IpKey(o.ip));
      if !o.saved then own
      else if key == Target(o) then Larger(own, taken) + if o.update.SessionStart? then 1 else 0
      else if o.client != "" && key == IpKey(o.ip) then 0
      else own
  }

  predicate SessionsFit(e: Entry, sessions: int) {
    && sessions >= 0 && e.sessionEpoch == sessions
    && e.reconnects == (if sessions == 0 then 0 else sessions - 1)
    && (sessions > 0 ==> e.mqttConnected)
  }

  lemma MergeSessions(a: Entry, b: Entry, m: int, n: int)
    requires SessionsFit(a, m) && SessionsFit(b, n)
    ensures SessionsFit(Merge(a, b), Larger(m, n))
  {
    hide MergeNames;
  }

  lemma ApplySessions(e: Entry, u: Update, client: string, ip: string, n: int)
    requires SessionsFit(e, n)
    ensures SessionsFit(Updated(e, u, client, ip), n + if u.SessionStart? then 1 else 0)
  {
    hide Identify, Overlay;
  }

  lemma FoundSessions(s: Store, o: Observation, own: int, taken: int)
    requires if Target(o) in s then SessionsFit(s[Target(o)], own) else own == 0
    requires if o.client != "" && IpKey(o.ip) in s then SessionsFit(s[IpKey(o.ip)], taken) else taken == 0
    ensures SessionsFit(Found(s, o), Larger(own, taken))
  {
    hide Merge;
    var e := if Target(o) in s then s[Target(o)] else NEW_ENTRY;
    if o.client != "" && IpKey(o.ip) in s {
      MergeSessions(e, s[IpKey(o.ip)], own, taken);
    }
  }

  /** On every reachable store the session epoch is the number of session starts recorded, and all but the first
      were reconnects. */
  lemma {:induction false} SessionsAreCounted(stores: seq<Store>, observations: seq<Observation>, j: nat, key: string)
    requires IsRun(stores, observations) && RealClients(observations) && stores[0] == map[] && j < |stores|
    ensures if key in stores[j] then SessionsFit(stores[j][key], Sessions(observations[..j], key))
            else Sessions(observations[..j], key) == 0
  {
    hide Observe, Deduplicated, Target, ValidPick, Found, Updated, SessionsFit;
    if j > 0 {
      var o, n := observations[j - 1], j - 1;
      assert observations[..j][..n] == observations[..n];
      AlwaysDeduplicated(stores, observations, n);
      ObservedEntry(stores[n], o, key);
      SessionsAreCounted(stores, observations, n, key);
      SessionsAreCounted(stores, observations, n, IpKey(o.ip));
      if o.saved && key == Target(o) {
        var own := if Wipes(o) then 0 else Sessions(observations[..n], key);
        var taken := if Wipes(o) || o.client == "" then 0 else Sessions(observations[..n], IpKey(o.ip));
        FoundSessions(Loaded(stores[n], o.loaded), o, own, taken);
        ApplySessions(Found(Loaded(stores[n], o.loaded), o), o.update, o.client, o.ip, Larger(own, taken));
      }
    }
  }

  // ---- what one observation writes -------------------------------------------------------------------

  /** The times, the topic and the last command of the entry under which an observation is recorded; its address, unless
      it could not be made out, and its client_id. */
  lemma JustRecorded(s: Store, o: Observation)
    requires Deduplicated(s) && !IsPseudo(o.client) && o.saved
    requires o.client == "" ==> ValidPick(Loaded(s, o.loaded), o.ip, o.pick)
    ensures Target(o) in Observe(s, o)
    ensures var e, was := Observe(s, o)[Target(o)], Found(Loaded(s, o.loaded), o);
            && (o.ip != "?" ==> Ip in e.names && e.names[Ip] == o.ip)
            && (o.client != "" ==> ClientId in e.names && e.names[ClientId] == o.client)
            && match o.update
               case MefPost(_, at) =>
                 e.lastSeen == Some(at) && e.lastMsg == was.lastMsg && e.sessionStart == was.sessionStart
                 && e.lastInject == was.lastInject && e.cells == was.cells && e.voltage == was.voltage
               case SessionStart(at) =>
                 e.lastSeen == Some(at) && e.lastMsg == was.lastMsg && e.sessionStart == Some(at)
                 && e.lastInject == was.lastInject && e.cells == was.cells && e.voltage == was.voltage
               case Message(topic, delta, at, mergedAt) =>
                 e.lastSeen == Some(if delta.Some? then mergedAt else at) && e.lastMsg == Some(at)
                 && e.sessionStart == was.sessionStart && e.lastInject == was.lastInject
                 && LastTopic in e.names && e.names[LastTopic] == topic
                 && (delta.Some? && delta.value.cmdReport.Some? && delta.value.cmdReport.value != "" ==>
                       LastCmdReport in e.names && e.names[LastCmdReport] == delta.value.cmdReport.value)
               case Injected(command) =>
                 e.lastSeen == was.lastSeen && e.lastMsg == was.lastMsg && e.sessionStart == was.sessionStart
                 && e.lastInject == Some(command) && e.cells == was.cells && e.voltage == was.voltage
  {
    ObservedEntry(s, o, Target(o));
    var was := Found(Loaded(s, o.loaded), o);
    ApplyKeepsPlace(Stamp(was, o.client, o.ip), o.update);
    AppliedNames(Stamp(was, o.client, o.ip), o.update);
    hide Observe, Found, Deduplicated, Identify, Overlay, ValidPick, Target;
  }

  /** What it says of its identity replaces what was there; telemetry dates an entry that was not dated yet; a session
      start is counted, and as a reconnect if the entry was connected in an earlier one. */
  lemma JustIdentified(s: Store, o: Observation, name: Name)
    requires Deduplicated(s) && !IsPseudo(o.client) && o.saved && IsIdentity(name)
    requires o.client == "" ==> ValidPick(Loaded(s, o.loaded), o.ip, o.pick)
    ensures Target(o) in Observe(s, o)
    ensures var e, was := Observe(s, o)[Target(o)], Found(Loaded(s, o.loaded), o);
            var again := o.update.SessionStart? && was.mqttConnected && was.sessionEpoch > 0;
            && NameOf(e.names, name) == (if Said(o.update, name).Some? then Said(o.update, name) else NameOf(was.names, name))
            && (was.firstSeen.At? ==> e.firstSeen == was.firstSeen)
            && (was.firstSeen.Undated? ==>
                  e.firstSeen == if WithTelemetry(o.update) then At(o.update.mergedAt) else Undated)
            && e.sessionEpoch == was.sessionEpoch + (if o.update.SessionStart? then 1 else 0)
            && e.reconnects == was.reconnects + (if again then 1 else 0)
  {
    hide Observe, Found, Deduplicated, ValidPick, Target, Said, Apply, Has;
    ObservedEntry(s, o, Target(o));
    var was := Found(Loaded(s, o.loaded), o);
    ApplyIdentifies(Stamp(was, o.client, o.ip), o.update, name);
    AppliedCounts(Stamp(was, o.client, o.ip), o.update);
  }

  lemma AppliedCounts(e: Entry, u: Update)
    ensures e.firstSeen.At? ==> Apply(e, u).firstSeen == e.firstSeen
    ensures e.firstSeen.Undated? ==> Apply(e, u).firstSeen == if WithTelemetry(u) then At(u.mergedAt) else Undated
    ensures Apply(e, u).sessionEpoch == e.sessionEpoch + (if u.SessionStart? then 1 else 0)
    ensures Apply(e, u).reconnects
         == e.reconnects + (if u.SessionStart? && e.mqttConnected && e.sessionEpoch > 0 then 1 else 0)
  {
    hide Identify, Overlay;
  }

  lemma AppliedNames(e: Entry, u: Update)
    ensures u.Message? ==> NameOf(Apply(e, u).names, LastTopic) == Some(u.topic)
    ensures u.Message? && u.delta.Some? && u.delta.value.cmdReport.Some? && u.delta.value.cmdReport.value != "" ==>
              NameOf(Apply(e, u).names, LastCmdReport) == u.delta.value.cmdReport
  {
    hide Identify;
  }
}
