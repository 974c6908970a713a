/** The bytes one speed test may move: the split of its budget
    (internal/measurement/measurement.go) and the runner's allocation of each
    direction (internal/qualitytest/runner.go). */
module TestBytes {
  import opened Arithmetic
  import opened Claims
  import opened Wrappers

  const KIB: nat := 1024
  const MIB: nat := 1024 * 1024
  const UINT64: nat := 0x1_0000_0000_0000_0000
  const MAX_RESPONSE_RESERVE: nat := 64 * KIB

  /** Byte ceilings and durations of a profile, as normalisation leaves them. */
  datatype Profile = Profile(maxDownload: nat, maxUpload: nat, minSeconds: nat, maxSeconds: nat) {
    predicate Normalised() {
      && 512 * KIB <= maxDownload <= 1024 * MIB
      && 256 * KIB <= maxUpload <= 512 * MIB
      && 2 <= minSeconds <= 30
      && minSeconds <= maxSeconds <= 120
    }
  }

  // ---- the split ------------------------------------------------------------

  /** RunTest's split of the bytes left, or none when a share is too small. */
  function Split(p: Profile, remaining: nat): Option<(nat, nat)> {
    if remaining < MIB || p.maxDownload + p.maxUpload == 0 then None
    else
      var total := p.maxDownload + p.maxUpload;
      var effective := Min(total, remaining);
      var download := effective * p.maxDownload / total;
      if download < 512 * KIB || effective - download < 256 * KIB then None
      else Some((download, effective - download))
  }

  lemma ShareIsBounded(effective: nat, part: nat, total: nat)
    requires part <= total && effective <= total && total > 0
    ensures 0 <= effective * part / total <= part
    ensures effective - (total - part) <= effective * part / total <= effective
  {
    var rest := total - part;
    TimesGrows(effective, total, part);
    TimesGrows(effective, total, rest);
    TimesGrows(part, total, effective);
    TimesSwaps(effective, part);
    TimesSwaps(effective, total);
    TimesSwaps(total, part);
    TimesSwaps(total, rest);
    TimesSum(part, rest, effective);
    TimesSwaps(effective, rest);
    TimesSum(effective - rest, rest, total);
    DivideBounds(effective * part, total, 0, part);
    DivideBounds(effective * part, total, effective - rest, effective);
  }

  /** The split never gives a direction more than it requested, spends exactly
      the smaller of the request and what is left, and its 64-bit product never
      overflows for a normalised profile. */
  lemma SplitStaysWithinRequest(p: Profile, remaining: nat)
    requires p.Normalised()
    ensures
      var total := p.maxDownload + p.maxUpload;
      && total < UINT64
      && Min(total, remaining) * p.maxDownload < UINT64
      && (Split(p, remaining).Some? ==>
            var (download, upload) := Split(p, remaining).value;
            && 512 * KIB <= download <= p.maxDownload
            && 256 * KIB <= upload <= p.maxUpload
            && download + upload == Min(total, remaining))
  {
    var total := p.maxDownload + p.maxUpload;
    var effective := Min(total, remaining);
    TimesGrows(effective, 1536 * MIB, p.maxDownload);
    TimesGrows(p.maxDownload, 1024 * MIB, 1536 * MIB);
    ShareIsBounded(effective, p.maxDownload, total);
  }

  /** Each direction's share is its part of the request, rounded down for downloads;
      a split fails exactly on less than a mebibyte or a share below its floor. */
  lemma SplitIsProportional(p: Profile, remaining: nat, download: nat)
    requires p.maxDownload + p.maxUpload > 0
    requires
      var total := p.maxDownload + p.maxUpload;
      download * total <= Min(total, remaining) * p.maxDownload < (download + 1) * total
    ensures
      var upload := Min(p.maxDownload + p.maxUpload, remaining) - download;
      Split(p, remaining) ==
        if remaining >= 1024 * 1024 && download >= 512 * 1024 && upload >= 256 * 1024
        then Some((download, upload)) else None
  {
    var total := p.maxDownload + p.maxUpload;
    DivideIs(Min(total, remaining) * p.maxDownload, total, download);
  }

  /** A test with its whole envelope left gets what the profile asks for. */
  lemma WholeEnvelopeIsSplitAsAsked(p: Profile, remaining: nat)
    requires p.Normalised() && remaining >= p.maxDownload + p.maxUpload >= 1024 * 1024
    ensures Split(p, remaining) == Some((p.maxDownload, p.maxUpload))
  {
    var total := p.maxDownload + p.maxUpload;
    TimesSwaps(p.maxDownload, total);
    TimesSum(p.maxDownload, 1, total);
    SplitIsProportional(p, remaining, p.maxDownload);
  }

  // ---- one run of the native runner --------------------------------------------

  /** How the workers of a phase fare, for each budget they may be given. */
  type Load = nat -> Plan

  ghost predicate Realistic(load: Load, use: Use) {
    forall capacity: nat :: Plays(load(capacity), use, capacity)
  }

  /** How one transfer fares: the chunks read from its body, whether the answer is
      outside 2xx, and what the transport goes on reading from an upload's body
      after the transfer has returned. */
  datatype Transfer = Transfer(chunks: seq<nat>, refused: bool, late: nat)

  /** Everything the network decides during a run: each warm-up's transfer, the
      workers' interleaving in each phase and on the shared response budget, and
      each direction's measured rate in megabits, not positive when there is none. */
  datatype Conditions = Conditions(
    warmDownload: Transfer, warmUpload: Transfer, download: Load, upload: Load,
    bothDownload: Load, bothUpload: Load, responses: Load,
    rateDownload: real, rateUpload: real, cancelled: bool)
  {
    ghost predicate Possible() {
      && Realistic(download, Blocks) && Realistic(upload, Blocks)
      && Realistic(bothDownload, Blocks) && Realistic(bothUpload, Blocks) && Realistic(responses, Replies)
    }
  }

  /** Where a load's budget stands once its workers, offered some bytes, are done. */
  ghost function Ran(load: Load, use: Use, offered: nat): Budget
    requires Realistic(load, use)
  {
    Played(load(offered), use, offered)
  }

  ghost predicate LoadSeen(load: Load, use: Use, offered: nat)
    requires Realistic(load, use)
  {
    Seen(load(offered), use, offered)
  }

  function Sum(chunks: seq<nat>): nat {
    if chunks == [] then 0 else Sum(chunks[..|chunks| - 1]) + chunks[|chunks| - 1]
  }

  /** What a transfer reports: nothing if refused, else what was read of its body. */
  function Reported(amount: nat, t: Transfer): (bytes: nat)
    ensures bytes <= amount
  {
    if t.refused then 0 else Min(Sum(t.chunks), amount)
  }

  /** What a transfer moves: an upload's body is sent whatever the answer, and may
      be read on; a download's is read only after an answer within 2xx. */
  function Carried(upload: bool, amount: nat, t: Transfer): (bytes: nat)
    ensures bytes <= amount
  {
    if upload then Min(Sum(t.chunks) + t.late, amount) else Reported(amount, t)
  }

  /** An upload sent something and was answered outside 2xx, or was not read to
      its end when it returned and is read on. */
  predicate Hidden(upload: bool, amount: nat, t: Transfer) {
    upload && amount > 0 && ((t.refused && Sum(t.chunks) > 0) || (t.late > 0 && Sum(t.chunks) < amount))
  }

  function ResponseCapacity(p: Profile): (capacity: nat)
    ensures capacity <= p.maxDownload
  {
    Min(MAX_RESPONSE_RESERVE, p.maxDownload / 16)
  }

  function PhaseSeconds(p: Profile): real {
    var share := p.maxSeconds as real * 3.0 / 10.0;
    if share >= 2.0 then share else 2.0
  }

  function BothSeconds(p: Profile): real {
    var share := p.maxSeconds as real / 4.0;
    if share >= 2.0 then share else 2.0
  }

  function Window(p: Profile): real {
    PhaseSeconds(p) + BothSeconds(p)
  }

  lemma DemandIsPositive(p: Profile, rate: real)
    requires rate > 0.0
    ensures 0.0 <= Demand(p, rate)
  {
    ProductIsPositive(rate, Window(p));
  }

  /** Once and a half the bits that a rate in megabits moves in the window. */
  function Demand(p: Profile, rate: real): real {
    rate * Window(p) * 1500000.0
  }

  /** adaptiveAllocation: never above the ceiling, never below a mebibyte of it. */
  function Allocation(p: Profile, rate: real, ceiling: nat): (bytes: nat)
    ensures Min(ceiling, MIB) <= bytes <= ceiling
  {
    if rate <= 0.0 then ceiling
    else
      DemandIsPositive(p, rate);
      Min(ceiling, Max((Demand(p, rate) / 8.0).Floor, MIB))
  }

  /** With a measured rate an allocation sustains once and a half that rate through
      both phases and is at least a mebibyte, unless the ceiling is less, and no smaller
      number of bytes would do; without a rate it is the ceiling. */
  lemma AllocationIsLeast(p: Profile, rate: real, ceiling: nat, other: nat)
    ensures rate <= 0.0 ==> Allocation(p, rate, ceiling) == ceiling
    ensures rate > 0.0 && Allocation(p, rate, ceiling) < ceiling ==>
      Allocation(p, rate, ceiling) >= 1024 * 1024
      && 8.0 * (Allocation(p, rate, ceiling) + 1) as real > rate * Window(p) * 1500000.0
    ensures rate > 0.0 && 8.0 * other as real >= rate * Window(p) * 1500000.0 && other >= 1024 * 1024 ==>
      Allocation(p, rate, ceiling) <= other
  {
  }

  /** The last phase's share of the window, at least a quarter. */
  function Fraction(p: Profile): real {
    var share := BothSeconds(p) / (PhaseSeconds(p) + BothSeconds(p));
    if share >= 0.25 then share else 0.25
  }

  function Portion(available: nat, fraction: real): nat
    requires 0.0 <= fraction
    requires 0.0 <= available as real * fraction
  {
    (available as real * fraction).Floor
  }

  lemma ProductIsPositive(a: real, b: real)
    requires 0.0 <= a && 0.0 <= b
    ensures 0.0 <= a * b
  {
  }

  /** bidirectionalReserve. */
  function Reserve(p: Profile, available: nat): nat {
    FractionRange(p);
    ProductIsPositive(available as real, Fraction(p));
    Portion(available, Fraction(p))
  }

  lemma RatioBelowOne(part: real, other: real)
    requires part > 0.0 && other > 0.0
    ensures part / (part + other) <= 1.0
  {
    var whole := part + other;
    assert part / whole + other / whole == whole / whole == 1.0;
    assert other / whole > 0.0;
  }

  lemma FractionRange(p: Profile)
    ensures 0.25 <= Fraction(p) <= 1.0
  {
    assert PhaseSeconds(p) >= 2.0 && BothSeconds(p) >= 2.0;
    RatioBelowOne(BothSeconds(p), PhaseSeconds(p));
  }

  lemma PortionFits(available: nat, fraction: real)
    requires 0.25 <= fraction <= 1.0 && 0.0 <= available as real * fraction
    ensures available - 3 <= 4 * Portion(available, fraction) <= 4 * available
  {
    ProductIsPositive(available as real, fraction - 0.25);
    ProductIsPositive(available as real, 1.0 - fraction);
    var x := available as real * fraction;
    assert available as real * 0.25 <= x <= available as real;
    FloorBetween(x, available);
  }

  lemma FloorBetween(x: real, n: nat)
    requires n as real * 0.25 <= x <= n as real
    ensures n - 3 <= 4 * x.Floor <= 4 * n
  {
  }

  /** The reserve fits the allocation, and is at least a quarter of it. */
  lemma ReserveFits(p: Profile, available: nat)
    ensures 0 <= Reserve(p, available) <= available
    ensures 4 * Reserve(p, available) >= available - 3
  {
    FractionRange(p);
    ProductIsPositive(available as real, Fraction(p));
    PortionFits(available, Fraction(p));
  }

  lemma ShareOfWindow(phase: real, both: real, part: real, whole: real)
    requires phase > 0.0 && both > 0.0 && whole > 0.0 && both * whole == part * (phase + both)
    ensures both / (phase + both) == part / whole
  {
    var q := both / (phase + both);
    assert q * (phase + both) == both;
    Scaled(q, phase + both, part, whole);
  }

  lemma Scaled(q: real, sum: real, part: real, whole: real)
    requires sum > 0.0 && whole > 0.0 && q * sum * whole == part * sum
    ensures q == part / whole
  {
    assert q * whole * sum == part * sum;
    Cancels(q * whole, part, sum);
  }

  lemma Cancels(a: real, b: real, d: real)
    requires d > 0.0 && a * d == b * d
    ensures a == b
  {
    assert (a - b) * d == 0.0;
  }

  /** The reserve is the two-way phase's share of the two phases' time: half of the
      allocation on the shortest windows, five elevenths from eight seconds on. */
  lemma FractionOfWindow(p: Profile)
    requires p.maxSeconds >= 2
    ensures p.maxSeconds <= 6 ==> Fraction(p) == 1.0 / 2.0 && Window(p) == 4.0
    ensures p.maxSeconds == 7 ==> Fraction(p) == 20.0 / 41.0 && Window(p) == 4.1
    ensures p.maxSeconds >= 8 ==> Fraction(p) == 5.0 / 11.0 && Window(p) == p.maxSeconds as real * 0.55
  {
    var phase, both := PhaseSeconds(p), BothSeconds(p);
    if p.maxSeconds <= 6 {
      ShareOfWindow(phase, both, 1.0, 2.0);
    } else if p.maxSeconds == 7 {
      ShareOfWindow(phase, both, 20.0, 41.0);
    } else {
      ShareOfWindow(phase, both, 5.0, 11.0);
    }
  }

  /** So from eight seconds on five elevenths of an allocation are held back, rounded
      down to a byte. */
  lemma ReserveIsFiveElevenths(p: Profile, available: nat)
    requires p.maxSeconds >= 8
    ensures 11 * Reserve(p, available) <= 5 * available < 11 * (Reserve(p, available) + 1)
  {
    FractionOfWindow(p);
    FloorOfElevenths(available);
  }

  lemma FloorOfElevenths(n: nat)
    ensures
      var floor := (n as real * (5.0 / 11.0)).Floor;
      11 * floor <= 5 * n < 11 * (floor + 1)
  {
    assert n as real * (5.0 / 11.0) * 11.0 == 5.0 * n as real;
  }

  /** The bytes one run reports, per direction. */
  datatype Totals = Totals(download: nat, upload: nat)

  function WarmDownloadLimit(p: Profile): nat {
    Min((p.maxDownload - ResponseCapacity(p)) / 10, 4 * MIB)
  }

  function WarmUploadLimit(p: Profile): nat {
    Min(p.maxUpload / 10, 2 * MIB)
  }

  /** A warm-up is what a tenth of its direction covers, up to 4 and 2 MiB, and the
      replies get what a sixteenth of the download cap and 64 KiB cover. */
  lemma WarmUpShares(p: Profile, bytes: nat)
    ensures bytes <= ResponseCapacity(p) <==> 16 * bytes <= p.maxDownload && bytes <= 64 * 1024
    ensures bytes <= WarmDownloadLimit(p) <==>
      10 * bytes <= p.maxDownload - ResponseCapacity(p) && bytes <= 4 * 1024 * 1024
    ensures bytes <= WarmUploadLimit(p) <==> 10 * bytes <= p.maxUpload && bytes <= 2 * 1024 * 1024
  {
  }

  /** What the warm-ups reported, and what each later part of a run is offered; a
      phase that is left out is offered nothing. */
  datatype Offers = Offers(
    warmedDownload: nat, download: nat, bothDownload: nat, responses: nat,
    warmedUpload: nat, upload: nat, bothUpload: nat)

  const MIN_BOTH: nat := 128 * KIB

  predicate Runnable(p: Profile) {
    512 * KIB <= p.maxDownload && 256 * KIB <= p.maxUpload
  }

  /** Each direction's warm-up report, allocation and reserve. */
  datatype Sizes = Sizes(warm: Totals, available: Totals, reserve: Totals)

  function Reserved(p: Profile, available: Totals): Totals {
    Totals(Reserve(p, available.download), Reserve(p, available.upload))
  }

  /** What the warm-ups reported, and how the rest of each cap is allocated. */
  function Sized(p: Profile, c: Conditions): (sizes: Sizes)
    requires Runnable(p)
  {
    var warm := Totals(Reported(WarmDownloadLimit(p), c.warmDownload), Reported(WarmUploadLimit(p), c.warmUpload));
    var bulk: nat := p.maxDownload - ResponseCapacity(p);
    var available := Totals(
      Allocation(p, c.rateDownload, bulk - warm.download), Allocation(p, c.rateUpload, p.maxUpload - warm.upload));
    Sizes(warm, available, Reserved(p, available))
  }

  /** The allocations fit below the caps next to what the warm-ups reported, and
      the reserves fit the allocations. */
  predicate Fitting(p: Profile, s: Sizes) {
    && s.reserve.download <= s.available.download <= p.maxDownload - ResponseCapacity(p) - s.warm.download
    && s.reserve.upload <= s.available.upload <= p.maxUpload - s.warm.upload
  }

  lemma SizesFit(p: Profile, c: Conditions)
    requires Runnable(p)
    ensures Fitting(p, Sized(p, c))
  {
    ReserveFits(p, Sized(p, c).available.download);
    ReserveFits(p, Sized(p, c).available.upload);
  }

  /** What a run offers to its parts. */
  function Offered(p: Profile, s: Sizes, cancelled: bool): (o: Offers)
    requires Fitting(p, s)
    ensures o.warmedDownload + o.download + o.bothDownload + o.responses <= p.maxDownload
    ensures o.warmedUpload + o.upload + o.bothUpload <= p.maxUpload
  {
    var both := s.reserve.download >= MIN_BOTH && s.reserve.upload >= MIN_BOTH && !cancelled;
    Offers(
      s.warm.download, s.available.download - s.reserve.download, if both then s.reserve.download else 0,
      ResponseCapacity(p),
      s.warm.upload, s.available.upload - s.reserve.upload, if both then s.reserve.upload else 0)
  }

  function OffersOf(p: Profile, c: Conditions): Offers
    requires Runnable(p)
  {
    SizesFit(p, c);
    Offered(p, Sized(p, c), c.cancelled)
  }

  /** A run offers its phases the whole of both allocations, unless it leaves the
      two-way phase out; then it keeps back exactly the reserves. */
  lemma OffersSpendAllocations(p: Profile, c: Conditions)
    requires Runnable(p)
    ensures
      var o, down, up := OffersOf(p, c), Sized(p, c).available.download, Sized(p, c).available.upload;
      && o.warmedDownload == Reported(WarmDownloadLimit(p), c.warmDownload)
      && o.warmedUpload == Reported(WarmUploadLimit(p), c.warmUpload)
      && down == Allocation(p, c.rateDownload, p.maxDownload - ResponseCapacity(p) - o.warmedDownload)
      && up == Allocation(p, c.rateUpload, p.maxUpload - o.warmedUpload)
      && o.download + Reserve(p, down) == down && o.upload + Reserve(p, up) == up
      && (o.bothDownload == o.bothUpload == 0 || (o.bothDownload == Reserve(p, down) && o.bothUpload == Reserve(p, up)))
      && (Reserve(p, down) >= 128 * 1024 && Reserve(p, up) >= 128 * 1024 && !c.cancelled
          <==> o.bothDownload > 0 && o.bothUpload > 0)
  {
    SizesFit(p, c);
  }

  /** The bytes that a run counts, per direction. */
  ghost function Reports(c: Conditions, o: Offers): Totals
    requires c.Possible()
  {
    Totals(
      o.warmedDownload + Ran(c.download, Blocks, o.download).spent
      + Ran(c.bothDownload, Blocks, o.bothDownload).spent + Ran(c.responses, Replies, o.responses).spent,
      o.warmedUpload + Ran(c.upload, Blocks, o.upload).spent + Ran(c.bothUpload, Blocks, o.bothUpload).spent)
  }

  /** The bytes that its warm-ups, its phases' workers and its replies move. */
  ghost function Moves(p: Profile, c: Conditions, o: Offers): Totals
    requires c.Possible()
  {
    Totals(
      Carried(false, WarmDownloadLimit(p), c.warmDownload) + Moved(Ran(c.download, Blocks, o.download))
      + Moved(Ran(c.bothDownload, Blocks, o.bothDownload)) + Moved(Ran(c.responses, Replies, o.responses)),
      Carried(true, WarmUploadLimit(p), c.warmUpload) + Moved(Ran(c.upload, Blocks, o.upload))
      + Moved(Ran(c.bothUpload, Blocks, o.bothUpload)))
  }

  /** Neither the upload warm-up nor a phase hides bytes. */
  ghost predicate RunSeen(p: Profile, c: Conditions, o: Offers)
    requires c.Possible()
  {
    && !Hidden(true, WarmUploadLimit(p), c.warmUpload)
    && LoadSeen(c.download, Blocks, o.download) && LoadSeen(c.bothDownload, Blocks, o.bothDownload)
    && LoadSeen(c.upload, Blocks, o.upload) && LoadSeen(c.bothUpload, Blocks, o.bothUpload)
  }

  lemma LoadCounts(load: Load, use: Use, offered: nat)
    requires Realistic(load, use)
    ensures
      var b := Ran(load, use, offered);
      && b.spent <= offered && b.spent <= Moved(b)
      && (b.spent == Moved(b) <==> LoadSeen(load, use, offered))
      && (!use.Units? ==> Moved(b) <= offered)
      && (use.Replies? ==> b.spent == Moved(b))
  {
    JoinedCounts(load(offered), use, offered);
  }

  lemma TransferCounts(upload: bool, amount: nat, t: Transfer)
    ensures Reported(amount, t) <= Carried(upload, amount, t)
    ensures Reported(amount, t) == Carried(upload, amount, t) <==> !Hidden(upload, amount, t)
  {
  }

  /** What a run reports stays within both caps. It is what the run moved exactly
      if no upload warm-up that had sent bytes was answered outside 2xx and no body
      trailed; the downloads keep to their cap whatever happens, and the uploads
      pass theirs by no more than the warm-up hid. */
  lemma RunCounts(p: Profile, c: Conditions)
    requires Runnable(p) && c.Possible()
    ensures
      var o, limit := OffersOf(p, c), WarmUploadLimit(p);
      var reported, moved := Reports(c, o), Moves(p, c, o);
      && reported.download <= moved.download <= p.maxDownload
      && reported.upload <= p.maxUpload && reported.upload <= moved.upload
      && moved.upload <= p.maxUpload + Carried(true, limit, c.warmUpload) - Reported(limit, c.warmUpload)
      && (reported == moved <==> RunSeen(p, c, o))
  {
    CountsOf(p, c, OffersOf(p, c));
  }

  /** The same for any offers that fit the caps. */
  lemma CountsOf(p: Profile, c: Conditions, o: Offers)
    requires c.Possible()
    requires o.warmedDownload == Reported(WarmDownloadLimit(p), c.warmDownload)
    requires o.warmedUpload == Reported(WarmUploadLimit(p), c.warmUpload)
    requires o.warmedDownload + o.download + o.bothDownload + o.responses <= p.maxDownload
    requires o.warmedUpload + o.upload + o.bothUpload <= p.maxUpload
    ensures
      var reported, moved := Reports(c, o), Moves(p, c, o);
      && reported.download <= moved.download <= p.maxDownload
      && reported.upload <= p.maxUpload && reported.upload <= moved.upload
      && moved.upload <= p.maxUpload + Carried(true, WarmUploadLimit(p), c.warmUpload) - o.warmedUpload
      && (reported == moved <==> RunSeen(p, c, o))
  {
    TransferCounts(true, WarmUploadLimit(p), c.warmUpload);
    LoadCounts(c.download, Blocks, o.download);
    LoadCounts(c.bothDownload, Blocks, o.bothDownload);
    LoadCounts(c.upload, Blocks, o.upload);
    LoadCounts(c.bothUpload, Blocks, o.bothUpload);
    LoadCounts(c.responses, Replies, o.responses);
  }

  /** A run whose downloads are idle, whose upload phases move all they are
      offered, and whose upload warm-up is sent in full and refused. */
  function RefusedWarmUp(p: Profile): Conditions {
    Conditions(
      Transfer([], false, 0), Transfer([WarmUploadLimit(p)], true, 0),
      Idle, Full, Idle, Full, Idle, 0.0, 0.0, false)
  }

  lemma RefusedWarmUpIsPossible(p: Profile)
    ensures RefusedWarmUp(p).Possible()
  {
    forall capacity: nat ensures Plays(Full(capacity), Blocks, capacity) {
      FullMovesAll(capacity);
    }
    forall capacity: nat, use ensures Plays(Idle(capacity), use, capacity) {
      IdleIsQuiet(use, capacity);
    }
  }

  /** Upload phases that move and count all they are offered. */
  lemma FullUploads(p: Profile, c: Conditions, o: Offers)
    requires c.Possible() && c.upload == Full && c.bothUpload == Full
    ensures Reports(c, o).upload == o.warmedUpload + o.upload + o.bothUpload
    ensures
      Moves(p, c, o).upload == Carried(true, WarmUploadLimit(p), c.warmUpload) + o.upload + o.bothUpload
  {
    FullMovesAll(o.upload);
    FullMovesAll(o.bothUpload);
  }

  lemma SumOfOne(bytes: nat)
    ensures Sum([bytes]) == bytes
  {
    assert [bytes][..0] == [];
  }

  /** The excess is real and as large as a warm-up: on every profile with a
      mebibyte each way such a run reports its whole upload cap and moves the
      warm-up besides. */
  lemma RefusedWarmUpPassesTheCap(p: Profile)
    requires p.maxDownload >= MIB && p.maxUpload >= MIB
    ensures
      var c := RefusedWarmUp(p);
      && c.Possible()
      && Reports(c, OffersOf(p, c)).upload == p.maxUpload
      && Moves(p, c, OffersOf(p, c)).upload == p.maxUpload + Min(p.maxUpload / 10, 2 * MIB) > p.maxUpload
  {
    RefusedWarmUpIsPossible(p);
    WholeUploadIsOffered(p);
    FullUploads(p, RefusedWarmUp(p), OffersOf(p, RefusedWarmUp(p)));
    SumOfOne(WarmUploadLimit(p));
  }

  lemma WholeUploadIsOffered(p: Profile)
    requires p.maxDownload >= MIB && p.maxUpload >= MIB
    ensures
      var o := OffersOf(p, RefusedWarmUp(p));
      o.warmedUpload == 0 && o.upload + o.bothUpload == p.maxUpload
  {
    var available := Sized(p, RefusedWarmUp(p)).available;
    ReserveFits(p, available.download);
    ReserveFits(p, available.upload);
  }

  /** oneTransfer: a reader hands out no more than the amount, an answer outside
      2xx ends a download before its body and an upload after it, and then nothing
      is reported. */
  method OneTransfer(upload: bool, amount: nat, t: Transfer) returns (reported: nat)
    ensures reported == Reported(amount, t) <= Carried(upload, amount, t) <= amount
    ensures reported == Carried(upload, amount, t) <==> !Hidden(upload, amount, t)
  {
    TransferCounts(upload, amount, t);
    if t.refused && !upload { return 0; }
    var read := 0;
    for i := 0 to |t.chunks|
      invariant read == Min(Sum(t.chunks[..i]), amount)
    {
      assert t.chunks[..i + 1][..i] == t.chunks[..i];
      var count := Min(t.chunks[i], amount - read);
      read := read + count;
    }
    assert t.chunks[..|t.chunks|] == t.chunks;
    reported := if t.refused then 0 else read;
  }

  /** One direction's allocation and the part of it held back. */
  method Size(p: Profile, rate: real, ceiling: nat) returns (available: nat, reserve: nat)
    ensures available == Allocation(p, rate, ceiling) <= ceiling
    ensures reserve == Reserve(p, available) && (available - 3) / 4 <= reserve <= available
  {
    available := Allocation(p, rate, ceiling);
    ReserveFits(p, available);
    reserve := Reserve(p, available);
  }

  /** executeLoad, or the reply budget of a whole run. */
  method ExecuteLoad(load: Load, use: Use, offered: nat) returns (counted: nat)
    requires Realistic(load, use)
    ensures counted == Ran(load, use, offered).spent <= offered
  {
    counted := Execute(load(offered), use, offered);
  }

  /** Both warm-ups, and each direction's allocation and reserve from what they
      reported. */
  method Prepare(p: Profile, c: Conditions) returns (s: Sizes)
    requires Runnable(p)
    ensures s == Sized(p, c) && Fitting(p, s)
  {
    var bulk: nat := p.maxDownload - ResponseCapacity(p);
    var warmDown := OneTransfer(false, WarmDownloadLimit(p), c.warmDownload);
    var warmUp := OneTransfer(true, WarmUploadLimit(p), c.warmUpload);
    var downAvailable, downReserve := Size(p, c.rateDownload, bulk - warmDown);
    var upAvailable, upReserve := Size(p, c.rateUpload, p.maxUpload - warmUp);
    s := Sizes(Totals(warmDown, warmUp), Totals(downAvailable, upAvailable), Totals(downReserve, upReserve));
  }

  /** What is left for the two-way phase: the whole reserve of both directions, or
      nothing for either. Every subtraction is on unsigned numbers, so each is shown
      not to go below zero. */
  method LeftForBoth(p: Profile, s: Sizes, used: Totals, cancelled: bool) returns (left: Totals)
    requires Fitting(p, s)
    requires used.download <= s.available.download - s.reserve.download
    requires used.upload <= s.available.upload - s.reserve.upload
    ensures left.download == Offered(p, s, cancelled).bothDownload
    ensures left.upload == Offered(p, s, cancelled).bothUpload
    ensures left ==
      if s.reserve.download >= 128 * 1024 && s.reserve.upload >= 128 * 1024 && !cancelled
      then s.reserve else Totals(0, 0)
  {
    var bulk: nat := p.maxDownload - ResponseCapacity(p);
    var download: nat := bulk - used.download - s.warm.download;
    var upload: nat := p.maxUpload - used.upload - s.warm.upload;
    left := Totals(Min(s.reserve.download, download), Min(s.reserve.upload, upload));
    if left.download < MIN_BOTH || left.upload < MIN_BOTH || cancelled {
      left := Totals(0, 0);
    }
  }

  /** The one-way phases, then the two-way phase on what was reserved for it. */
  method RunPhases(p: Profile, s: Sizes, c: Conditions) returns (t: Totals)
    requires Fitting(p, s) && c.Possible()
    ensures t == Reports(c, Offered(p, s, c.cancelled))
  {
    ghost var o := Offered(p, s, c.cancelled);
    var down := ExecuteLoad(c.download, Blocks, s.available.download - s.reserve.download);
    var up := ExecuteLoad(c.upload, Blocks, s.available.upload - s.reserve.upload);
    var left := LeftForBoth(p, s, Totals(down, up), c.cancelled);
    var bothDown := ExecuteLoad(c.bothDownload, Blocks, left.download);
    var bothUp := ExecuteLoad(c.bothUpload, Blocks, left.upload);
    var responses := ExecuteLoad(c.responses, Replies, ResponseCapacity(p));
    t := Totals(s.warm.download + down + bothDown + responses, s.warm.upload + up + bothUp);
    assert t == Reports(c, o);
  }

  /** Run: warm up, size each direction from the measured rate, then measure. */
  method Run(p: Profile, c: Conditions) returns (t: Totals)
    requires Runnable(p) && c.Possible()
    ensures t == Reports(c, OffersOf(p, c)) && t.download <= p.maxDownload && t.upload <= p.maxUpload
    ensures t == Moves(p, c, OffersOf(p, c)) <==> RunSeen(p, c, OffersOf(p, c))
  {
    var sizes := Prepare(p, c);
    t := RunPhases(p, sizes, c);
    RunCounts(p, c);
  }
}
