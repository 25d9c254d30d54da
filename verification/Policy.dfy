/** Validated configuration, queries and the admission policy of one target.
    Lists whose ids validation keeps unique (providers, accounts, groups) are maps;
    sources stay a sequence because their order is observable. */
module Policy {

  datatype Option<+T> = None | Some(value: T)

  datatype Strategy = Auto | Select | Fallback | Latency | LoadBalance | Weighted
  datatype Pool = RoundRobin | LeastLoad | Sticky | WeightedPool
  datatype Preference = LowerLatency | ExistingSubscription | LowerCost | OfficialApi | ReverseSource
  datatype Tools = Native | NoTools | UnknownTools
  datatype Adapter = OpenAI | Anthropic | Gemini | OtherAdapter
  datatype Kind = VendorApi | CloudApi | AggregatorApi | CustomApi | LocalModel
                | ProductReverse | BrowserReverse | AppReverse | CliReverse | UnsetKind
  datatype Billing = Metered | Subscription | FreeAllowance | LocalBilling | UnknownBilling

  datatype Model = Model(
    id: string, upstream: string, protocols: seq<string>, tier: int, tools: Tools, vision: bool,
    maxInputBytes: int, inputUSD: Option<real>, outputUSD: Option<real>,
    enabled: Option<bool>, autoApproved: Option<bool>)

  datatype Source = Source(
    id: string, provider: string, accountId: string, quotaDomain: string,
    maxInflight: int, quotaMaxInflight: int, weight: int,
    enabled: bool, autoApproved: bool, localInference: bool,
    kind: Kind, billing: Billing, adapter: Adapter, models: seq<Model>)

  datatype Group = Group(
    strategy: Strategy, sources: seq<string>, preferences: seq<Preference>,
    minTier: int, allowUnrated: bool, localOnly: bool, requireTools: bool, requireVision: bool,
    allowPaid: bool, allowMetered: Option<bool>, allowSubscription: Option<bool>, allowUnknownCost: Option<bool>,
    allowedKinds: seq<Kind>, maxUSDPerMillion: Option<real>, maxUSDPerRequest: Option<real>, maxAttempts: int)

  datatype Provider = Provider(enabled: bool, autoApproved: bool, pool: Pool)
  datatype Account = Account(provider: string, enabled: bool, autoApproved: bool, maxInflight: int, weight: int)

  datatype Config = Config(
    maxInflight: int, maxQueued: int,
    providers: map<string, Provider>, accounts: map<string, Account>,
    sources: seq<Source>, groups: map<string, Group>)

  /** `sticky` is the digest score of each account under the request's affinity
      (empty when the request has none). */
  datatype Query = Query(
    probe: bool, excluded: seq<string>, sticky: map<string, real>, model: string, protocol: string,
    tools: bool, bytes: int, outputTokens: int, spentUSD: real, stateful: bool, vision: bool)

  datatype Target = Target(source: nat, model: Model)

  datatype Reason =
    | Admitted
    | ProbeRequiresExplicitSource | AlreadyAttempted | ModelDisabled | Disabled | ParentDisabled
    | Blocked | WrongProtocol | InputLimit | NativeToolsRequired | VisionRequired | InvalidTier
    | ModelNotApproved | StatefulRequiresExplicitSource | NotApproved | LocalOnly | PaidNotAllowed
    | SourceKindRefused | CostUnknown | CostCeiling | RequestCostUnknown | RequestCostBudget
    | NotSelected | QualityFloor | WrongModel

  // ----- what configuration validation promises -----

  ghost predicate ValidModel(m: Model) {
    && m.id != [] && !("auto" <= m.id)
    && m.protocols != [] && m.maxInputBytes >= 1
    && (m.inputUSD.Some? ==> m.inputUSD.value >= 0.0)
    && (m.outputUSD.Some? ==> m.outputUSD.value >= 0.0)
  }

  ghost predicate ValidSource(c: Config, s: Source) {
    && '/' !in s.id && s.id != []
    && s.maxInflight >= 1 && s.quotaMaxInflight >= 1 && s.weight >= 0
    && s.models != [] && (forall m :: m in s.models ==> ValidModel(m))
    && (s.accountId != "" ==> s.accountId in c.accounts && c.accounts[s.accountId].provider == s.provider)
  }

  ghost predicate ValidGroup(c: Config, g: Group) {
    && g.minTier >= 0
    && (g.preferences != [] ==> g.strategy in {Auto, Latency, LoadBalance})
    && (forall id :: id in g.sources ==> exists i :: 0 <= i < |c.sources| && c.sources[i].id == id)
  }

  ghost predicate Valid(c: Config) {
    && c.maxInflight >= 1 && c.maxQueued >= 0
    && "" !in c.accounts
    && (forall a :: a in c.accounts ==> c.accounts[a].maxInflight >= 1 && c.accounts[a].weight >= 1)
    && (forall i :: 0 <= i < |c.sources| ==> ValidSource(c, c.sources[i]))
    && (forall i, j :: 0 <= i < j < |c.sources| ==> c.sources[i].id != c.sources[j].id)
    && (forall i, j :: 0 <= i < |c.sources| && 0 <= j < |c.sources| && c.sources[i].quotaDomain == c.sources[j].quotaDomain
          ==> c.sources[i].quotaMaxInflight == c.sources[j].quotaMaxInflight)
    && (forall id :: id in c.groups ==> '/' !in id && ValidGroup(c, c.groups[id]))
  }

  // ----- names and prices -----

  function ExplicitName(s: Source, m: Model): string { s.id + "/" + m.id }

  predicate IsTierQuery(model: string) { "auto/" <= model }

  /** The group or index key a requested model name selects. */
  function Key(model: string): string {
    if IsTierQuery(model) then "auto" else model
  }

  function TierOf(name: string): int {
    if name == "bronze" then 0
    else if name == "silver" then 1
    else if name == "gold" then 2
    else if name == "platinum" then 3
    else if name == "diamond" then 4
    else -1
  }

  function RequestedTier(model: string): int {
    if IsTierQuery(model) then TierOf(model[5..]) else -1
  }

  function Max(a: int, b: int): int { if a < b then b else a }

  function RealMax(a: real, b: real): real { if a < b then b else a }

  function UnitCost(m: Model): Option<real> {
    if m.inputUSD.None? || m.outputUSD.None? then None
    else Some(RealMax(m.inputUSD.value, m.outputUSD.value))
  }

  function EstimatedRequestCost(m: Model, q: Query): Option<real> {
    if q.bytes < 0 || q.outputTokens <= 0 || m.inputUSD.None? || m.outputUSD.None? then None
    else Some(q.bytes as real / 1000000.0 * m.inputUSD.value + q.outputTokens as real / 1000000.0 * m.outputUSD.value)
  }

  predicate BillingAllowed(g: Group, s: Source) {
    match s.billing
    case Metered => if g.allowMetered.Some? then g.allowMetered.value else g.allowPaid
    case Subscription => if g.allowSubscription.Some? then g.allowSubscription.value else g.allowPaid
    case UnknownBilling => g.allowUnknownCost.Some? && g.allowUnknownCost.value
    case FreeAllowance => true
    case LocalBilling => true
  }

  predicate ParentEnabled(c: Config, s: Source) {
    && (s.provider in c.providers ==> c.providers[s.provider].enabled)
    && (s.accountId in c.accounts ==> c.accounts[s.accountId].enabled)
  }

  predicate ParentApproved(c: Config, s: Source) {
    && (s.provider in c.providers ==> c.providers[s.provider].autoApproved)
    && (s.accountId in c.accounts ==> c.accounts[s.accountId].autoApproved)
  }

  /** The last declared position of `id`, as the compiled member table keeps it. */
  function MemberIndex(ids: seq<string>, id: string): (k: nat)
    requires id in ids
    ensures k < |ids| && ids[k] == id && id !in ids[k+1..]
  {
    if ids[|ids|-1] == id then |ids| - 1
    else
      assert ids == ids[..|ids|-1] + [ids[|ids|-1]];
      var k := MemberIndex(ids[..|ids|-1], id);
      assert ids[k+1..] == ids[..|ids|-1][k+1..] + [ids[|ids|-1]];
      k
  }

  // ----- admission of one target -----

  /** The part of the check that does not look at any group. */
  function BaseReason(c: Config, s: Source, m: Model, enabled: bool, blocked: bool, q: Query): Reason {
    if q.probe && q.model != ExplicitName(s, m) then ProbeRequiresExplicitSource
    else if s.id in q.excluded then AlreadyAttempted
    else if !q.probe && m.enabled == Some(false) then ModelDisabled
    else if !q.probe && !enabled then Disabled
    else if !q.probe && !ParentEnabled(c, s) then ParentDisabled
    else if !q.probe && blocked then Blocked
    else if q.protocol !in m.protocols then WrongProtocol
    else if q.bytes > m.maxInputBytes then InputLimit
    else if q.tools && m.tools != Native then NativeToolsRequired
    else if q.vision && !m.vision then VisionRequired
    else if IsTierQuery(q.model) && RequestedTier(q.model) < 0 then InvalidTier
    else Admitted
  }

  function CostReason(g: Group, m: Model, q: Query): Reason {
    if g.maxUSDPerMillion.Some? && UnitCost(m).None? then CostUnknown
    else if g.maxUSDPerMillion.Some? && UnitCost(m).value > g.maxUSDPerMillion.value then CostCeiling
    else if g.maxUSDPerRequest.Some? && EstimatedRequestCost(m, q).None? then RequestCostUnknown
    else if g.maxUSDPerRequest.Some?
            && (q.spentUSD < 0.0 || q.spentUSD + EstimatedRequestCost(m, q).value > g.maxUSDPerRequest.value) then RequestCostBudget
    else Admitted
  }

  function GroupReason(c: Config, g: Group, s: Source, m: Model, q: Query): Reason {
    if m.autoApproved == Some(false) then ModelNotApproved
    else if q.stateful then StatefulRequiresExplicitSource
    else if !s.autoApproved || !ParentApproved(c, s) || s.id !in g.sources then NotApproved
    else if g.localOnly && !s.localInference then LocalOnly
    else if !BillingAllowed(g, s) then PaidNotAllowed
    else if g.allowedKinds != [] && s.kind !in g.allowedKinds then SourceKindRefused
    else if g.requireTools && m.tools != Native then NativeToolsRequired
    else if g.requireVision && !m.vision then VisionRequired
    else if CostReason(g, m, q) != Admitted then CostReason(g, m, q)
    else if g.strategy == Select && (g.sources == [] || g.sources[0] != s.id) then NotSelected
    else if (m.tier < 0 && !g.allowUnrated) || (m.tier >= 0 && m.tier < Max(RequestedTier(q.model), g.minTier)) then QualityFloor
    else Admitted
  }

  function Eligible(c: Config, s: Source, m: Model, enabled: bool, blocked: bool, q: Query): Reason {
    var base := BaseReason(c, s, m, enabled, blocked, q);
    if base != Admitted then base
    else if Key(q.model) in c.groups then GroupReason(c, c.groups[Key(q.model)], s, m, q)
    else if q.model == ExplicitName(s, m) || (!q.stateful && q.model == m.id) then Admitted
    else WrongModel
  }

  // ----- admission, condition by condition -----

  const TIER_NAMES: set<string> := { "bronze", "silver", "gold", "platinum", "diamond" }

  /** What every query asks of a target. A probe names its target and passes over switches. */
  predicate MeetsQuery(c: Config, s: Source, m: Model, enabled: bool, blocked: bool, q: Query) {
    && s.id !in q.excluded && q.protocol in m.protocols && q.bytes <= m.maxInputBytes
    && (q.tools ==> m.tools == Native) && (q.vision ==> m.vision)
    && ("auto/" <= q.model ==> q.model[5..] in TIER_NAMES)
    && (q.probe ==> q.model == s.id + "/" + m.id)
    && (!q.probe ==> m.enabled != Some(false) && enabled && !blocked && ParentsAllow(c, s, (p: Provider) => p.enabled, (a: Account) => a.enabled))
  }

  /** Provider and account, as far as they are configured, both allow the source. */
  predicate ParentsAllow(c: Config, s: Source, provider: Provider -> bool, account: Account -> bool) {
    && (s.provider in c.providers ==> provider(c.providers[s.provider]))
    && (s.accountId in c.accounts ==> account(c.accounts[s.accountId]))
  }

  /** What a group asks on top: approval, membership, locality, billing, kind and capabilities. */
  predicate MeetsGroup(c: Config, g: Group, s: Source, m: Model, q: Query) {
    && m.autoApproved != Some(false) && !q.stateful && s.autoApproved && s.id in g.sources
    && ParentsAllow(c, s, (p: Provider) => p.autoApproved, (a: Account) => a.autoApproved)
    && (g.strategy == Select ==> g.sources[0] == s.id)
    && (g.localOnly ==> s.localInference)
    && (g.allowedKinds != [] ==> s.kind in g.allowedKinds)
    && (g.requireTools ==> m.tools == Native) && (g.requireVision ==> m.vision)
  }

  /** A billing mode is allowed by its own switch, else by the one for paid use; unknown costs only by
      their own; free and local use always. */
  predicate MeetsBilling(g: Group, s: Source) {
    && (s.billing == Metered ==> g.allowMetered == Some(true) || (g.allowMetered == None && g.allowPaid))
    && (s.billing == Subscription ==> g.allowSubscription == Some(true) || (g.allowSubscription == None && g.allowPaid))
    && (s.billing == UnknownBilling ==> g.allowUnknownCost == Some(true))
  }

  /** Price ceilings: an unknown price or an unbounded output meets none. */
  predicate MeetsPrice(g: Group, m: Model, q: Query) {
    && (g.maxUSDPerMillion.Some? ==>
          m.inputUSD.Some? && m.outputUSD.Some?
          && m.inputUSD.value <= g.maxUSDPerMillion.value && m.outputUSD.value <= g.maxUSDPerMillion.value)
    && (g.maxUSDPerRequest.Some? ==>
          m.inputUSD.Some? && m.outputUSD.Some? && q.bytes >= 0 && q.outputTokens > 0 && q.spentUSD >= 0.0
          && q.spentUSD + (q.bytes as real / 1000000.0 * m.inputUSD.value + q.outputTokens as real / 1000000.0 * m.outputUSD.value)
             <= g.maxUSDPerRequest.value)
  }

  /** A rated model reaches both the group's floor and the tier asked for. */
  predicate MeetsTier(g: Group, m: Model, q: Query) {
    if m.tier < 0 then g.allowUnrated
    else
      m.tier >= g.minTier && ("auto/" <= q.model ==> Reaches(m.tier, q.model[5..]))
  }

  predicate Reaches(tier: int, name: string) {
    && (name == "bronze" ==> tier >= 0) && (name == "silver" ==> tier >= 1) && (name == "gold" ==> tier >= 2)
    && (name == "platinum" ==> tier >= 3) && (name == "diamond" ==> tier >= 4)
  }

  /** A target is admitted exactly when it meets every condition; the order of the checks only
      decides which reason is given. */
  lemma AdmittedIff(c: Config, s: Source, m: Model, enabled: bool, blocked: bool, q: Query)
    ensures Eligible(c, s, m, enabled, blocked, q) == Admitted <==>
      && MeetsQuery(c, s, m, enabled, blocked, q)
      && var group := if "auto/" <= q.model then "auto" else q.model;
         if group in c.groups
         then var g := c.groups[group]; MeetsGroup(c, g, s, m, q) && MeetsBilling(g, s) && MeetsPrice(g, m, q) && MeetsTier(g, m, q)
         else q.model == s.id + "/" + m.id || (!q.stateful && q.model == m.id)
  {
    hide CostReason, BillingAllowed, MeetsPrice, MeetsBilling, MeetsTier, TierOf;
    TierRead(q.model);
    if Key(q.model) in c.groups {
      PriceIff(c.groups[Key(q.model)], m, q);
      BillingIff(c.groups[Key(q.model)], s);
      TierIff(c.groups[Key(q.model)], m, q);
    }
  }

  lemma TierRead(model: string)
    ensures RequestedTier(model) >= 0 <==> "auto/" <= model && model[5..] in TIER_NAMES
    ensures "auto/" <= model && model[5..] == "bronze" ==> RequestedTier(model) == 0
    ensures "auto/" <= model ==> (model[5..] == "silver" <==> RequestedTier(model) == 1)
    ensures "auto/" <= model ==> (model[5..] == "gold" <==> RequestedTier(model) == 2)
    ensures "auto/" <= model ==> (model[5..] == "platinum" <==> RequestedTier(model) == 3)
    ensures "auto/" <= model ==> (model[5..] == "diamond" <==> RequestedTier(model) == 4)
    ensures RequestedTier(model) <= 4 && (!("auto/" <= model) ==> RequestedTier(model) < 0)
  {
  }

  lemma TierIff(g: Group, m: Model, q: Query)
    ensures !((m.tier < 0 && !g.allowUnrated) || (m.tier >= 0 && m.tier < Max(RequestedTier(q.model), g.minTier))) <==> MeetsTier(g, m, q)
  {
    hide TierOf, RequestedTier;
    TierRead(q.model);
  }

  lemma BillingIff(g: Group, s: Source)
    ensures BillingAllowed(g, s) <==> MeetsBilling(g, s)
  {
  }

  lemma PriceIff(g: Group, m: Model, q: Query)
    ensures CostReason(g, m, q) == Admitted <==> MeetsPrice(g, m, q)
  {
  }

  /** A refusal names a condition that the target really fails. */
  lemma ReasonIsTrue(c: Config, s: Source, m: Model, enabled: bool, blocked: bool, q: Query)
    ensures var reason, group := Eligible(c, s, m, enabled, blocked, q), if "auto/" <= q.model then "auto" else q.model;
      && QueryReasonTrue(c, s, m, enabled, blocked, q, reason)
      && (group in c.groups ==> GroupReasonTrue(c, c.groups[group], s, m, q, reason))
      && (group !in c.groups ==> reason in UNGROUPED + {Admitted, NativeToolsRequired, VisionRequired})
      && (reason == WrongModel ==> group !in c.groups && q.model != s.id + "/" + m.id)
  {
    hide CostReason, BillingAllowed, TierOf, GroupReasonTrue, GroupReason, QueryReasonTrue, BaseReason;
    QueryReasonIsTrue(c, s, m, enabled, blocked, q);
    if Key(q.model) in c.groups {
      GroupReasonIsTrue(c, c.groups[Key(q.model)], s, m, q);
      OtherReasons(c, c.groups[Key(q.model)], s, m, q, BaseReason(c, s, m, enabled, blocked, q));
      GroupReasonsApart(c, c.groups[Key(q.model)], s, m, enabled, blocked, q);
    } else {
      NoGroupReasons(c, s, m, enabled, blocked, q);
    }
  }

  /** What the reasons that speak of no group say. */
  predicate QueryReasonTrue(c: Config, s: Source, m: Model, enabled: bool, blocked: bool, q: Query, reason: Reason) {
    match reason
    case ProbeRequiresExplicitSource => q.probe && q.model != s.id + "/" + m.id
    case AlreadyAttempted => s.id in q.excluded
    case ModelDisabled => m.enabled == Some(false) && !q.probe
    case Disabled => !enabled && !q.probe
    case ParentDisabled => !ParentsAllow(c, s, (p: Provider) => p.enabled, (a: Account) => a.enabled) && !q.probe
    case Blocked => blocked && !q.probe
    case WrongProtocol => q.protocol !in m.protocols
    case InputLimit => q.bytes > m.maxInputBytes
    case InvalidTier => "auto/" <= q.model && q.model[5..] !in TIER_NAMES
    case NativeToolsRequired => m.tools != Native
    case VisionRequired => !m.vision
    case _ => true
  }

  lemma QueryReasonIsTrue(c: Config, s: Source, m: Model, enabled: bool, blocked: bool, q: Query)
    ensures QueryReasonTrue(c, s, m, enabled, blocked, q, BaseReason(c, s, m, enabled, blocked, q))
    ensures BaseReason(c, s, m, enabled, blocked, q) in UNGROUPED - {WrongModel} + {Admitted, NativeToolsRequired, VisionRequired}
  {
    hide TierOf;
    TierRead(q.model);
  }

  lemma GroupReasonsApart(c: Config, g: Group, s: Source, m: Model, enabled: bool, blocked: bool, q: Query)
    ensures QueryReasonTrue(c, s, m, enabled, blocked, q, GroupReason(c, g, s, m, q))
  {
    hide BillingAllowed, GroupReason;
    GroupReasonIsTrue(c, g, s, m, q);
  }

  lemma NoGroupReasons(c: Config, s: Source, m: Model, enabled: bool, blocked: bool, q: Query)
    ensures QueryReasonTrue(c, s, m, enabled, blocked, q, Admitted) && QueryReasonTrue(c, s, m, enabled, blocked, q, WrongModel)
  {
  }

  /** What the reasons that speak of a group say. */
  predicate GroupReasonTrue(c: Config, g: Group, s: Source, m: Model, q: Query, reason: Reason) {
    match reason
    case ModelNotApproved => m.autoApproved == Some(false)
    case StatefulRequiresExplicitSource => q.stateful
    case NotApproved => !s.autoApproved || s.id !in g.sources || !ParentsAllow(c, s, (p: Provider) => p.autoApproved, (a: Account) => a.autoApproved)
    case LocalOnly => g.localOnly && !s.localInference
    case PaidNotAllowed => !MeetsBilling(g, s)
    case SourceKindRefused => g.allowedKinds != [] && s.kind !in g.allowedKinds
    case CostUnknown => g.maxUSDPerMillion.Some? && (m.inputUSD.None? || m.outputUSD.None?)
    case CostCeiling =>
      g.maxUSDPerMillion.Some? && m.inputUSD.Some? && m.outputUSD.Some?
      && (m.inputUSD.value > g.maxUSDPerMillion.value || m.outputUSD.value > g.maxUSDPerMillion.value)
    case RequestCostUnknown => g.maxUSDPerRequest.Some? && (m.inputUSD.None? || m.outputUSD.None? || q.bytes < 0 || q.outputTokens <= 0)
    case RequestCostBudget => g.maxUSDPerRequest.Some? && !MeetsPrice(g, m, q)
    case NotSelected => g.strategy == Select && (g.sources == [] || g.sources[0] != s.id)
    case QualityFloor => !MeetsTier(g, m, q)
    case _ => true
  }

  const UNGROUPED: set<Reason> := { ProbeRequiresExplicitSource, AlreadyAttempted, ModelDisabled, Disabled, ParentDisabled, Blocked,
                                    WrongProtocol, InputLimit, InvalidTier, WrongModel }

  lemma OtherReasons(c: Config, g: Group, s: Source, m: Model, q: Query, base: Reason)
    requires base in UNGROUPED || base in {Admitted, NativeToolsRequired, VisionRequired}
    ensures GroupReasonTrue(c, g, s, m, q, base)
  {
  }

  lemma GroupReasonIsTrue(c: Config, g: Group, s: Source, m: Model, q: Query)
    ensures GroupReasonTrue(c, g, s, m, q, GroupReason(c, g, s, m, q))
    ensures GroupReason(c, g, s, m, q) == NativeToolsRequired ==> m.tools != Native
    ensures GroupReason(c, g, s, m, q) == VisionRequired ==> !m.vision
    ensures GroupReason(c, g, s, m, q) !in UNGROUPED
  {
    hide BillingAllowed, TierOf, MeetsBilling, MeetsTier;
    BillingIff(g, s);
    TierIff(g, m, q);
  }
}
