/** The immutable ledger record and the values it is built from. */
module Entry {
  import opened Base

  /******* Identities *******/

  /** A 128-bit identity. The tag that keeps identity kinds apart in the
      original is a compile-time matter and is not modelled. */
  datatype Id = Id(hi: U64, lo: U64)

  const ZERO_ID: Id := Id(0, 0)

  /** The canonical order: high half first. */
  predicate IdLess(a: Id, b: Id) {
    a.hi < b.hi || (a.hi == b.hi && a.lo < b.lo)
  }

  lemma IdTotalOrder()
    ensures TotalOrder(IdLess)
  {
  }

  function SortedIds(s: set<Id>): (r: seq<Id>)
    ensures forall x :: x in r <==> x in s
    ensures StrictlyAscending(IdLess, r)
    ensures |r| == |s|
  {
    IdTotalOrder();
    Ascending(IdLess, s)
  }

  /******* Enumerations, with their wire values *******/

  datatype EventKind =
    | RequestStart | RequestEnd | Queue | BatchWait | Prefill | Decode
    | SpeculationProposed | SpeculationAccepted | SpeculationRejected
    | GpuExecution | CpuExecution | KvAllocate | KvRelease | KvReuse
    | TensorAllocate | TensorRelease | TensorReuse | ModelResidency | AdapterResidency
    | KernelHit | KernelMiss | GraphHit | GraphMiss
    | TransferH2D | TransferD2H | TransferInterNode | CacheRead | CacheWrite
    | Reserve | Release | Retry | Failure | Cancellation | Recompute | ReuseAvoided
    | Energy | CostAdjustment

  datatype ResourceKind =
    | Compute | Memory | Kv | Tensor | Transfer | Residency | Cache | Energy | Cost | Generic

  datatype Unit =
    | Count | ByteCount | ByteSeconds | Seconds | Nanoseconds | EnergyJoule | EnergyWh | Currency | Dimensionless

  datatype Provenance = Measured | Reported | Derived | Estimated | Reconstructed | Unavailable

  // `XOf` reads a wire value, `None` where the decoder rejects it; `XCode` writes one.

  function EventOf(c: Byte): Option<EventKind> {
    match c
    case 1 => Some(RequestStart) case 2 => Some(RequestEnd) case 3 => Some(Queue)
    case 4 => Some(BatchWait) case 5 => Some(Prefill) case 6 => Some(Decode)
    case 7 => Some(SpeculationProposed) case 8 => Some(SpeculationAccepted) case 9 => Some(SpeculationRejected)
    case 10 => Some(GpuExecution) case 11 => Some(CpuExecution) case 12 => Some(KvAllocate)
    case 13 => Some(KvRelease) case 14 => Some(KvReuse) case 15 => Some(TensorAllocate)
    case 16 => Some(TensorRelease) case 17 => Some(TensorReuse) case 18 => Some(ModelResidency)
    case 19 => Some(AdapterResidency) case 20 => Some(KernelHit) case 21 => Some(KernelMiss)
    case 22 => Some(GraphHit) case 23 => Some(GraphMiss) case 24 => Some(TransferH2D)
    case 25 => Some(TransferD2H) case 26 => Some(TransferInterNode) case 27 => Some(CacheRead)
    case 28 => Some(CacheWrite) case 29 => Some(Reserve) case 30 => Some(Release)
    case 31 => Some(Retry) case 32 => Some(Failure) case 33 => Some(Cancellation)
    case 34 => Some(Recompute) case 35 => Some(ReuseAvoided) case 36 => Some(EventKind.Energy)
    case 37 => Some(CostAdjustment)
    case _ => None
  }

  function EventCode(k: EventKind): (c: Byte)
    ensures EventOf(c) == Some(k)
  {
    match k
    case RequestStart => 1 case RequestEnd => 2 case Queue => 3 case BatchWait => 4
    case Prefill => 5 case Decode => 6 case SpeculationProposed => 7 case SpeculationAccepted => 8
    case SpeculationRejected => 9 case GpuExecution => 10 case CpuExecution => 11 case KvAllocate => 12
    case KvRelease => 13 case KvReuse => 14 case TensorAllocate => 15 case TensorRelease => 16
    case TensorReuse => 17 case ModelResidency => 18 case AdapterResidency => 19 case KernelHit => 20
    case KernelMiss => 21 case GraphHit => 22 case GraphMiss => 23 case TransferH2D => 24
    case TransferD2H => 25 case TransferInterNode => 26 case CacheRead => 27 case CacheWrite => 28
    case Reserve => 29 case Release => 30 case Retry => 31 case Failure => 32
    case Cancellation => 33 case Recompute => 34 case ReuseAvoided => 35 case Energy => 36
    case CostAdjustment => 37
  }

  function ResourceOf(c: Byte): Option<ResourceKind> {
    match c
    case 1 => Some(Compute) case 2 => Some(Memory) case 3 => Some(Kv) case 4 => Some(Tensor)
    case 5 => Some(Transfer) case 6 => Some(Residency) case 7 => Some(Cache) case 8 => Some(ResourceKind.Energy)
    case 9 => Some(Cost) case 10 => Some(Generic)
    case _ => None
  }

  function ResourceCode(k: ResourceKind): (c: Byte)
    ensures ResourceOf(c) == Some(k)
  {
    match k
    case Compute => 1 case Memory => 2 case Kv => 3 case Tensor => 4
    case Transfer => 5 case Residency => 6 case Cache => 7 case Energy => 8
    case Cost => 9 case Generic => 10
  }

  function UnitOf(c: Byte): Option<Unit> {
    match c
    case 0 => Some(Count) case 1 => Some(ByteCount) case 2 => Some(ByteSeconds) case 3 => Some(Seconds)
    case 4 => Some(Nanoseconds) case 5 => Some(EnergyJoule) case 6 => Some(EnergyWh) case 7 => Some(Currency)
    case 8 => Some(Dimensionless)
    case _ => None
  }

  function UnitCode(k: Unit): (c: Byte)
    ensures UnitOf(c) == Some(k)
  {
    match k
    case Count => 0 case ByteCount => 1 case ByteSeconds => 2 case Seconds => 3
    case Nanoseconds => 4 case EnergyJoule => 5 case EnergyWh => 6 case Currency => 7
    case Dimensionless => 8
  }

  function ProvenanceOf(c: Byte): Option<Provenance> {
    match c
    case 0 => Some(Measured) case 1 => Some(Reported) case 2 => Some(Derived) case 3 => Some(Estimated)
    case 4 => Some(Reconstructed) case 5 => Some(Unavailable)
    case _ => None
  }

  function ProvenanceCode(k: Provenance): (c: Byte)
    ensures ProvenanceOf(c) == Some(k)
  {
    match k
    case Measured => 0 case Reported => 1 case Derived => 2 case Estimated => 3
    case Reconstructed => 4 case Unavailable => 5
  }

  predicate IsPhysical(k: ResourceKind) {
    k.Compute? || k.Memory? || k.Kv? || k.Tensor? || k.Transfer? || k.Residency? || k.Cache? || k == ResourceKind.Energy
  }

  /******* Quantities: a double kept as its 64-bit pattern *******/

  datatype Quantity = Quantity(bits: U64, unit: Unit, provenance: Provenance)

  function SignBit(bits: U64): nat { bits / 0x8000_0000_0000_0000 }
  function ExponentField(bits: U64): nat { bits / 0x10_0000_0000_0000 % 0x800 }
  function FractionField(bits: U64): nat { bits % 0x10_0000_0000_0000 }

  /** Neither infinite nor a NaN. */
  predicate IsFinite(bits: U64) { ExponentField(bits) != 0x7FF }

  function PowerOfTwo(n: int): (r: real)
    ensures r > 0.0
    decreases if n < 0 then -n else n
  {
    if n == 0 then 1.0 else if n > 0 then 2.0 * PowerOfTwo(n - 1) else PowerOfTwo(n + 1) / 2.0
  }

  /** The binary64 value of a finite pattern (section 3.4 of IEEE 754-2008). */
  function Value(bits: U64): real
    requires IsFinite(bits)
  {
    var exponent := ExponentField(bits);
    var significand := if exponent == 0 then FractionField(bits) else 0x10_0000_0000_0000 + FractionField(bits);
    var scale := if exponent == 0 then 1 else exponent;
    var magnitude := (significand as real) * PowerOfTwo(scale - 1075);
    if SignBit(bits) == 1 then -magnitude else magnitude
  }

  predicate IsNegative(bits: U64)
    requires IsFinite(bits)
  {
    Value(bits) < 0.0
  }

  predicate IsIntegral(bits: U64)
    requires IsFinite(bits)
  {
    Value(bits).Floor as real == Value(bits)
  }

  /** `==` on doubles: a NaN equals nothing, and the two zeros are equal. */
  predicate SameDouble(a: U64, b: U64) {
    if IsFinite(a) && IsFinite(b) then Value(a) == Value(b)
    else a == b && FractionField(a) == 0
  }

  /******* The record *******/

  datatype Source = Source(worker: Id, boot: Id, accountingGeneration: U64)

  datatype Envelope = Envelope(
    epoch: U64, workerBoot: Id, requestGeneration: U64, accountingGeneration: U64,
    attempt: Id, attemptGeneration: U64, dispatch: Id)

  datatype LedgerEntry = LedgerEntry(
    id: Id, ledger: Id, tenant: Id, workload: Id, request: Id, model: Id, modelRevision: Id,
    hasAdapter: bool, adapter: Id,
    attempt: Id, dispatch: Id, worker: Id, node: Id, device: Id,
    eventKind: EventKind, resourceKind: ResourceKind, quantity: Quantity,
    startNs: U64, endNs: U64, hasEnd: bool,
    source: Source, authority: Envelope,
    hasAccountingPolicy: bool, accountingPolicy: Id,
    hasPricingPolicy: bool, pricingPolicy: Id,
    metadata: map<Bytes, Bytes>)

  /** Fields that a presence flag switches off hold their default. */
  function Canonical(e: LedgerEntry): LedgerEntry {
    e.(adapter := if e.hasAdapter then e.adapter else ZERO_ID,
       accountingPolicy := if e.hasAccountingPolicy then e.accountingPolicy else ZERO_ID,
       pricingPolicy := if e.hasPricingPolicy then e.pricingPolicy else ZERO_ID)
  }

  /** `LedgerEntry::operator==`. */
  predicate SameEntry(a: LedgerEntry, b: LedgerEntry) {
    && SameDouble(a.quantity.bits, b.quantity.bits)
    && Canonical(a).(quantity := b.quantity) == Canonical(b)
    && a.quantity.unit == b.quantity.unit && a.quantity.provenance == b.quantity.provenance
  }

  lemma SameEntryCanonical(e: LedgerEntry)
    requires IsFinite(e.quantity.bits)
    ensures SameEntry(Canonical(e), e) && SameEntry(e, e)
    ensures Canonical(Canonical(e)) == Canonical(e)
  {
  }

  /** Duration in nanoseconds, zero for instantaneous or inverted intervals. */
  function DurationNs(e: LedgerEntry): nat {
    if e.hasEnd && e.endNs >= e.startNs then e.endNs - e.startNs else 0
  }
}
