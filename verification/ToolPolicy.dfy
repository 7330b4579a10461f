/** Which assistant tools an account may use, which tool each agent step forces,
    and the bit-packed key under which a filtered tool catalogue is cached.
    Classifier verdicts on the user's text (keyword tests, regular expressions)
    are fields of `UserContext`. */
module ToolPolicy {
  import opened Basics

  datatype ToolName =
    // tools with a rule of their own
    | PrepareL1Recommendation
    | RegistrationRisk
    | RegistrationTool(text: string)
    | Assessment
    | SetTitle
    | NewUserGift
    | WeeklyDiscount
    | GrantL1
    | ImageGeneration
    | BountyData
    | PlanOffers
    // administrator tools; the first kind is reserved to ROOT
    | AdminRootTool(text: string)
    | AdminTool(text: string)
    // open to every account
    | SkillTool(text: string)
    | ServiceFacts
    | AvailableModels
    | ModelPricing
    | L1Recommendation
    | AccountAccess
    | HumanSupportStatus
    | RequestHumanSupport
    | CalculateMath
    | BountyGuide
    | PublicTool(text: string)
    // everything else needs developer or administrator access
    | UsageSummary
    | InvitationRewards
    | RequestCreateKey
    | OtherTool(text: string)

  datatype Intent =
    | Onboarding | PlanPurchase | ApiKey | ClientSetup | Cost | Math | Recommendation
    | Bounty | Usage | Models | Invitation | OtherIntent

  /** `L0Spelling` is a level that only equals L0 after trimming and case folding. */
  datatype AccessLevel = L0 | L0Spelling | Root | OtherLevel
  datatype OfferState = OfferNone | NeedsDetails | Ready | Blocked
  datatype Profile = Promotion | SecurityRisk | OtherProfile
  datatype RecommendationAction = NoRecommendation | Revise | Remove
  datatype CreateKeyAction = NoCreateKey | RequestKey | SelectGroup

  datatype UserContext = UserContext(
    administrator: bool,
    developer: bool,
    level: AccessLevel,
    titleNeeded: bool,
    paymentHidden: bool,
    offerState: OfferState,
    giftBlocked: bool,
    profile: Profile,
    completedTurns: int,
    intent: Intent,
    recommendation: RecommendationAction,
    createKey: CreateKeyAction,
    giftPending: bool,
    discountPending: bool,
    // verdicts on the latest user request
    blankRequest: bool,
    publicActivity: bool,
    giftRequest: bool,
    giftDeclined: bool,
    discountRequest: bool,
    discountDeclined: bool,
    endpointMention: bool,
    modelMention: bool,
    modelReference: bool,
    bountyRead: bool,
    supportBooking: bool,
    supportRequest: bool,
    imageRequest: bool)

  const DIRECT_GRANT_MIN_TURNS := 3

  function PaymentOffer(c: UserContext): OfferState {
    if c.paymentHidden then Blocked else c.offerState
  }

  predicate RegistrationAllowed(c: UserContext) {
    !c.administrator && !c.developer && c.level == L0
  }

  predicate DirectGrantAllowed(c: UserContext) {
    !c.administrator && !c.developer && (c.level == L0 || c.level == L0Spelling)
    && c.completedTurns >= DIRECT_GRANT_MIN_TURNS
  }

  predicate GiftAllowed(c: UserContext) {
    !c.administrator && !c.giftBlocked && c.profile != Promotion && c.profile != SecurityRisk
  }

  predicate DiscountAllowed(c: UserContext) {
    !c.administrator && c.profile != SecurityRisk
  }

  predicate BountyReadAllowed(c: UserContext) {
    c.intent == Bounty || c.bountyRead
  }

  /** The model-generated L0 assessment is switched off in the source. */
  predicate AssessmentRequired(c: UserContext) {
    false
  }

  predicate IsRegistrationTool(t: ToolName) {
    t.RegistrationRisk? || t.RegistrationTool?
  }

  predicate IsAdministratorTool(t: ToolName) {
    t.AdminRootTool? || t.AdminTool?
  }

  predicate IsPublicTool(t: ToolName) {
    t.ServiceFacts? || t.AvailableModels? || t.ModelPricing? || t.L1Recommendation? || t.AccountAccess?
    || t.HumanSupportStatus? || t.RequestHumanSupport? || t.CalculateMath? || t.BountyGuide? || t.PublicTool?
  }

  /** The filter itself; `drawing` is the global image-generation switch. */
  predicate Allowed(t: ToolName, c: UserContext, drawing: bool) {
    if t.PrepareL1Recommendation? then false
    else if IsRegistrationTool(t) then RegistrationAllowed(c)
    else if AssessmentRequired(c) then t.Assessment?
    else if t.Assessment? then false
    else if t.SetTitle? then c.titleNeeded
    else if t.NewUserGift? then GiftAllowed(c)
    else if t.WeeklyDiscount? then DiscountAllowed(c)
    else if t.GrantL1? then DirectGrantAllowed(c)
    else if t.ImageGeneration? then drawing && c.developer
    else if t.BountyData? then BountyReadAllowed(c)
    else if IsAdministratorTool(t) && !c.administrator then false
    else if c.administrator then c.level == Root || !t.AdminRootTool?
    else if c.developer then !IsAdministratorTool(t)
    else if t.SkillTool? || IsPublicTool(t) then true
    else if t.PlanOffers? then PaymentOffer(c) == Ready
    else false
  }

  // ---------- the catalogue cache ----------

  const TOOL_SETS := 2048

  /** The eleven flags that make up a catalogue key, lowest bit first. */
  datatype Flags = Flags(assessment: bool, title: bool, administrator: bool, root: bool, developer: bool,
                         offers: bool, gift: bool, discount: bool, bounty: bool, grant: bool, registration: bool)

  function FlagsOf(c: UserContext): Flags {
    Flags(AssessmentRequired(c), c.titleNeeded, c.administrator, c.level == Root, c.developer,
          PaymentOffer(c) == Ready, GiftAllowed(c), DiscountAllowed(c), BountyReadAllowed(c),
          DirectGrantAllowed(c), RegistrationAllowed(c))
  }

  function Bits(f: Flags): (bits: seq<bool>) {
    [f.assessment, f.title, f.administrator, f.root, f.developer, f.offers, f.gift, f.discount, f.bounty, f.grant,
     f.registration]
  }

  function Pow2(n: nat): nat {
    if n == 0 then 1 else 2 * Pow2(n - 1)
  }

  function Pack(bits: seq<bool>): (key: nat)
    ensures key < Pow2(|bits|)
  {
    if bits == [] then 0 else (if bits[0] then 1 else 0) + 2 * Pack(bits[1..])
  }

  function KeyForTools(c: UserContext): (key: nat)
    ensures key < TOOL_SETS
  {
    TableSize();
    Pack(Bits(FlagsOf(c)))
  }

  lemma {:induction false} TableSize()
    ensures Pow2(11) == TOOL_SETS
  {
    assert Pow2(3) == 8 && Pow2(6) == 64 && Pow2(9) == 512;
  }

  lemma {:induction false} PackInjective(a: seq<bool>, b: seq<bool>)
    requires |a| == |b| && Pack(a) == Pack(b)
    ensures a == b
    decreases |a|
  {
    if a != [] {
      PackInjective(a[1..], b[1..]);
      assert a == [a[0]] + a[1..] && b == [b[0]] + b[1..];
    }
  }

  /** A key determines every flag packed into it. */
  lemma {:induction false} KeyDeterminesFlags(c: UserContext, d: UserContext)
    requires KeyForTools(c) == KeyForTools(d)
    ensures FlagsOf(c) == FlagsOf(d)
  {
    var a, b := Bits(FlagsOf(c)), Bits(FlagsOf(d));
    PackInjective(a, b);
    assert forall i :: 0 <= i < 11 ==> a[i] == b[i];
  }

  /** What the filter becomes once the context is reduced to its flags. */
  predicate AllowedByFlags(t: ToolName, f: Flags, drawing: bool) {
    match t
    case RegistrationRisk => f.registration
    case RegistrationTool(_) => f.registration
    case SetTitle => f.title
    case NewUserGift => f.gift
    case WeeklyDiscount => f.discount
    case GrantL1 => f.grant
    case ImageGeneration => drawing && f.developer
    case BountyData => f.bounty
    case PlanOffers => f.administrator || f.developer || f.offers
    case AdminRootTool(_) => f.administrator && f.root
    case AdminTool(_) => f.administrator
    case PrepareL1Recommendation => false
    case Assessment => false
    case _ => f.administrator || f.developer || t.SkillTool? || IsPublicTool(t)
  }

  /** The filter reads nothing of a context beyond its flags. */
  lemma {:induction false} FilterReadsFlags(t: ToolName, c: UserContext, drawing: bool)
    ensures Allowed(t, c, drawing) == AllowedByFlags(t, FlagsOf(c), drawing)
  {
  }

  /** Equal keys mean equal filters for one setting of the switch, and a flipped
      switch can only move the image tool, and that only for developers. */
  lemma {:induction false} KeyAgreesWithFilter(
    t: ToolName, c: UserContext, d: UserContext, drawing: bool, drawing': bool)
    requires KeyForTools(c) == KeyForTools(d)
    ensures Allowed(t, c, drawing) == Allowed(t, d, drawing')
            <==> t != ImageGeneration || !c.developer || drawing == drawing'
  {
    KeyDeterminesFlags(c, d);
    FilterReadsFlags(t, c, drawing);
    FilterReadsFlags(t, d, drawing');
  }

  /** The catalogue as direct filtering computes it. */
  function Catalogue(all: seq<ToolName>, c: UserContext, drawing: bool): seq<ToolName> {
    if all == [] then []
    else (if Allowed(all[0], c, drawing) then [all[0]] else []) + Catalogue(all[1..], c, drawing)
  }

  lemma {:induction false} CatalogueMember(all: seq<ToolName>, c: UserContext, drawing: bool, t: ToolName)
    ensures t in Catalogue(all, c, drawing) <==> t in all && Allowed(t, c, drawing)
    decreases |all|
  {
    if all != [] {
      CatalogueMember(all[1..], c, drawing, t);
    }
  }

  lemma {:induction false} CatalogueAgrees(all: seq<ToolName>, c: UserContext, d: UserContext, filled: bool, now: bool)
    requires forall t | t in all :: Allowed(t, c, filled) == Allowed(t, d, now)
    ensures Catalogue(all, c, filled) == Catalogue(all, d, now)
    decreases |all|
  {
    if all != [] {
      CatalogueAgrees(all[1..], c, d, filled, now);
    }
  }

  /** Exactly when a catalogue filled for one context under one switch setting is
      right for another context with the same key under the current setting. */
  lemma {:induction false} StaleCatalogue(all: seq<ToolName>, c: UserContext, d: UserContext, filled: bool, now: bool)
    requires KeyForTools(c) == KeyForTools(d)
    ensures Catalogue(all, c, filled) == Catalogue(all, d, now)
            <==> ImageGeneration !in all || !c.developer || filled == now
  {
    if ImageGeneration !in all || !c.developer || filled == now {
      forall t | t in all ensures Allowed(t, c, filled) == Allowed(t, d, now) {
        KeyAgreesWithFilter(t, c, d, filled, now);
      }
      CatalogueAgrees(all, c, d, filled, now);
    } else {
      KeyAgreesWithFilter(ImageGeneration, c, d, filled, now);
      CatalogueMember(all, c, filled, ImageGeneration);
      CatalogueMember(all, d, now, ImageGeneration);
    }
  }

  datatype ToolSet = Unfilled | Filled(tools: seq<ToolName>)

  /** A slot holds the catalogue of the context that filled it, or nothing yet. */
  ghost predicate SlotSound(all: seq<ToolName>, slot: ToolSet, filledBy: map<nat, (UserContext, bool)>, k: nat) {
    if k in filledBy then
      KeyForTools(filledBy[k].0) == k && slot == Filled(Catalogue(all, filledBy[k].0, filledBy[k].1))
    else slot == Unfilled
  }

  lemma {:induction false} OtherSlot(
    all: seq<ToolName>, slot: ToolSet, filledBy: map<nat, (UserContext, bool)>,
    k: nat, key: nat, origin: (UserContext, bool))
    requires SlotSound(all, slot, filledBy, k) && k != key
    ensures SlotSound(all, slot, filledBy[key := origin], k)
  {
  }

  /** The table of catalogues, each slot filled once by the first context that lands on it. */
  class ToolSets {
    const all: seq<ToolName>
    const table: array<ToolSet>
    ghost var filledBy: map<nat, (UserContext, bool)>

    ghost predicate Valid()
      reads this, table
    {
      && table.Length == TOOL_SETS
      && (forall k | k in filledBy :: k < table.Length)
      && (forall k | 0 <= k < table.Length :: SlotSound(all, table[k], filledBy, k))
    }

    constructor (all: seq<ToolName>)
      ensures Valid() && fresh(table) && this.all == all && filledBy == map[]
    {
      this.all := all;
      table := new ToolSet[TOOL_SETS](_ => Unfilled);
      filledBy := map[];
    }

    /** The answer is the direct filter's, or the one computed when the slot was
        filled; the two differ only if the switch moved since, the account is a
        developer's and the image tool exists. */
    method DefinitionsFor(c: UserContext, drawing: bool) returns (tools: seq<ToolName>)
      requires Valid()
      modifies table, this`filledBy
      ensures Valid() && KeyForTools(c) in filledBy
      ensures filledBy == if KeyForTools(c) in old(filledBy) then old(filledBy)
                          else old(filledBy)[KeyForTools(c) := (c, drawing)]
      ensures tools == Catalogue(all, c, drawing)
              <==> filledBy[KeyForTools(c)].1 == drawing || !c.developer || ImageGeneration !in all
      ensures forall t | t != ImageGeneration :: t in tools <==> t in all && Allowed(t, c, drawing)
    {
      var key := KeyForTools(c);
      FillOnce(key, c, drawing);
      tools := table[key].tools;
      SlotAnswers(filledBy[key], c, drawing);
    }

    method FillOnce(key: nat, c: UserContext, drawing: bool)
      requires Valid() && key == KeyForTools(c)
      modifies table, this`filledBy
      ensures Valid()
      ensures filledBy == if key in old(filledBy) then old(filledBy) else old(filledBy)[key := (c, drawing)]
    {
      if table[key].Unfilled? {
        var found := SelectTools(c, drawing);
        table[key] := Filled(found);
        forall k | 0 <= k < table.Length ensures SlotSound(all, table[k], filledBy[key := (c, drawing)], k) {
          if k != key {
            OtherSlot(all, table[k], filledBy, k, key, (c, drawing));
          }
        }
        filledBy := filledBy[key := (c, drawing)];
      }
    }

    lemma {:induction false} SlotAnswers(origin: (UserContext, bool), c: UserContext, drawing: bool)
      requires KeyForTools(origin.0) == KeyForTools(c)
      ensures Catalogue(all, origin.0, origin.1) == Catalogue(all, c, drawing)
              <==> origin.1 == drawing || !c.developer || ImageGeneration !in all
      ensures forall t | t != ImageGeneration ::
                t in Catalogue(all, origin.0, origin.1) <==> t in all && Allowed(t, c, drawing)
    {
      KeyDeterminesFlags(origin.0, c);
      StaleCatalogue(all, origin.0, c, origin.1, drawing);
      forall t | t != ImageGeneration
        ensures t in Catalogue(all, origin.0, origin.1) <==> t in all && Allowed(t, c, drawing)
      {
        CatalogueMember(all, origin.0, origin.1, t);
        KeyAgreesWithFilter(t, origin.0, c, origin.1, drawing);
      }
    }

    method SelectTools(c: UserContext, drawing: bool) returns (found: seq<ToolName>)
      ensures found == Catalogue(all, c, drawing)
    {
      found := [];
      for i := 0 to |all|
        invariant found + Catalogue(all[i..], c, drawing) == Catalogue(all, c, drawing)
      {
        assert all[i..][1..] == all[i + 1..];
        if Allowed(all[i], c, drawing) {
          Regroup(found, [all[i]], Catalogue(all[i + 1..], c, drawing));
          found := found + [all[i]];
        }
      }
      assert all[|all|..] == [];
    }
  }
}
