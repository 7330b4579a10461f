/** The chain of live reads a request must make before it is answered, the tool
    choice each agent step forces, and the step budget that makes room for both. */
module ReadChain {
  import opened Basics
  import opened ToolPolicy

  // ---------- workflows ----------

  predicate RecommendationWorkflow(c: UserContext) {
    c.intent == Recommendation && c.recommendation != NoRecommendation
  }

  predicate CreateKeyWorkflow(c: UserContext) {
    c.developer && c.createKey != NoCreateKey
  }

  predicate PlanOfferWorkflow(c: UserContext, drawing: bool) {
    c.intent == PlanPurchase && PaymentOffer(c) == Ready && Allowed(PlanOffers, c, drawing)
  }

  predicate PublicActivityWorkflow(c: UserContext, drawing: bool) {
    c.publicActivity && Allowed(ServiceFacts, c, drawing)
  }

  predicate GiftWorkflow(c: UserContext) {
    !c.giftDeclined && (c.giftRequest || c.giftPending) && GiftAllowed(c)
  }

  predicate DiscountWorkflow(c: UserContext) {
    !c.discountDeclined && (c.discountRequest || c.discountPending) && DiscountAllowed(c)
  }

  predicate SupportWorkflow(c: UserContext, drawing: bool) {
    (c.supportBooking || c.supportRequest) && Allowed(RequestHumanSupport, c, drawing)
  }

  predicate ImageWorkflow(c: UserContext, drawing: bool) {
    drawing && c.developer && c.imageRequest
  }

  // ---------- the chain ----------

  /** A link of the chain: a tool and whether this request wants it. */
  datatype Link = Link(wanted: bool, tool: ToolName)

  function Pick(links: seq<Link>): seq<ToolName> {
    if links == [] then []
    else (if links[0].wanted then [links[0].tool] else []) + Pick(links[1..])
  }

  predicate ModelsWanted(c: UserContext) {
    c.intent == Cost || c.intent == Models || c.modelMention || c.modelReference
  }

  /** The links in the order the source appends them. A request about an activity
      reads the service facts early, a bare endpoint question only after the
      reward tools; either way they are read once. */
  function Links(c: UserContext, drawing: bool): seq<Link> {
    [ Link(PlanOfferWorkflow(c, drawing), PlanOffers),
      Link(c.intent == Recommendation, L1Recommendation),
      Link(c.publicActivity, ServiceFacts),
      Link(GiftWorkflow(c), NewUserGift),
      Link(DiscountWorkflow(c), WeeklyDiscount),
      Link(c.endpointMention && !c.publicActivity, ServiceFacts),
      Link(ModelsWanted(c), AvailableModels),
      Link(c.intent == Cost && c.modelReference, ModelPricing),
      Link(c.intent == Bounty && c.bountyRead, BountyData) ]
  }

  function Chain(c: UserContext, drawing: bool): seq<ToolName> {
    if c.blankRequest then [] else Pick(Links(c, drawing))
  }

  lemma {:induction false} PickMember(links: seq<Link>, t: ToolName)
    ensures t in Pick(links) <==> Link(true, t) in links
    decreases |links|
  {
    if links != [] {
      PickMember(links[1..], t);
      assert Link(true, t) in links <==> links[0] == Link(true, t) || Link(true, t) in links[1..];
    }
  }

  lemma {:induction false} ChainMember(c: UserContext, drawing: bool, t: ToolName)
    ensures t in Chain(c, drawing) <==> !c.blankRequest && Link(true, t) in Links(c, drawing)
  {
    PickMember(Links(c, drawing), t);
  }

  /** Every tool the chain asks for is one the account may use, so the step
      choice never has to skip a link, and none of them is an administrator tool. */
  lemma {:induction false} ChainAllowed(c: UserContext, drawing: bool, t: ToolName)
    requires t in Chain(c, drawing)
    ensures Allowed(t, c, drawing) && !IsAdministratorTool(t) && t != SetTitle
  {
    ChainMember(c, drawing, t);
    var i :| 0 <= i < 9 && Links(c, drawing)[i] == Link(true, t);
  }

  lemma {:induction false} TitleChangesNoPermission(c: UserContext, drawing: bool, title: bool, t: ToolName)
    requires t == PlanOffers || t == ServiceFacts
    ensures Allowed(t, c.(titleNeeded := title), drawing) == Allowed(t, c, drawing)
  {
  }

  lemma {:induction false} TitleChangesNoWorkflow(c: UserContext, drawing: bool, title: bool)
    ensures var d := c.(titleNeeded := title);
            && (PlanOfferWorkflow(d, drawing) <==> PlanOfferWorkflow(c, drawing))
            && (PublicActivityWorkflow(d, drawing) <==> PublicActivityWorkflow(c, drawing))
            && (GiftWorkflow(d) <==> GiftWorkflow(c)) && (DiscountWorkflow(d) <==> DiscountWorkflow(c))
            && (ModelsWanted(d) <==> ModelsWanted(c))
  {
    TitleChangesNoPermission(c, drawing, title, PlanOffers);
    TitleChangesNoPermission(c, drawing, title, ServiceFacts);
  }

  /** Wanting a title changes neither the chain nor any workflow. */
  lemma {:induction false} TitleChangesNoChain(c: UserContext, drawing: bool, title: bool)
    ensures Chain(c.(titleNeeded := title), drawing) == Chain(c, drawing)
  {
    var d := c.(titleNeeded := title);
    TitleChangesNoWorkflow(c, drawing, title);
    assert Links(d, drawing) == Links(c, drawing);
  }

  // ---------- the forced choice ----------

  datatype ToolChoice =
    | Omitted
    | Auto
    | NoTools
    | Required
    | OtherWord(text: string)
    | Named(tool: ToolName, responsesShape: bool)

  function Force(t: ToolName): ToolChoice {
    Named(t, false)
  }

  function IntentTool(c: UserContext): (r: seq<ToolName>) {
    match c.intent
    case Cost => [AvailableModels]
    case Models => [AvailableModels]
    case Math => [CalculateMath]
    case ApiKey => [ServiceFacts]
    case ClientSetup => [ServiceFacts]
    case Onboarding => [AccountAccess]
    case Recommendation => [L1Recommendation]
    case Usage => [UsageSummary]
    case Invitation => [InvitationRewards]
    case Bounty => if c.bountyRead then [BountyData] else [BountyGuide]
    case _ => []
  }

  /** The tool the request as a whole suggests: at most one. */
  function SuggestedTool(c: UserContext, drawing: bool): seq<ToolName> {
    var name :=
      if c.titleNeeded then [SetTitle]
      else if PlanOfferWorkflow(c, drawing) then [PlanOffers]
      else if c.supportBooking then [HumanSupportStatus]
      else if c.supportRequest then [RequestHumanSupport]
      else if c.publicActivity then [ServiceFacts]
      else if c.giftRequest then [NewUserGift]
      else if c.discountRequest then [WeeklyDiscount]
      else IntentTool(c);
    if name != [] then name
    else if c.modelReference then [AvailableModels]
    else if c.imageRequest then [ImageGeneration]
    else []
  }

  function ContextChoice(c: UserContext, drawing: bool): ToolChoice {
    var name := SuggestedTool(c, drawing);
    if name != [] && Allowed(name[0], c, drawing) then Force(name[0]) else Auto
  }

  datatype NextRead = Read(tool: ToolName) | FailedRead | Complete

  /** First uncalled link, unless an earlier called link has not succeeded. */
  function NextIn(chain: seq<ToolName>, called: set<ToolName>, succeeded: set<ToolName>): NextRead {
    if chain == [] then Complete
    else if chain[0] !in called then Read(chain[0])
    else if chain[0] !in succeeded then FailedRead
    else NextIn(chain[1..], called, succeeded)
  }

  function CreateKeyChoice(c: UserContext, called: set<ToolName>, succeeded: set<ToolName>): ToolChoice {
    if c.createKey == RequestKey && ServiceFacts !in called then Force(ServiceFacts)
    else if c.createKey == RequestKey && ServiceFacts !in succeeded then NoTools
    else if RequestCreateKey !in called then Force(RequestCreateKey)
    else NoTools
  }

  function SupportChoice(c: UserContext, called: set<ToolName>, succeeded: set<ToolName>): ToolChoice {
    if c.supportBooking then
      if HumanSupportStatus !in called then Force(HumanSupportStatus)
      else if HumanSupportStatus !in succeeded then NoTools
      else Auto
    else if RequestHumanSupport !in called then Force(RequestHumanSupport)
    else NoTools
  }

  function RecommendationChoice(c: UserContext, called: set<ToolName>, succeeded: set<ToolName>): ToolChoice {
    if L1Recommendation !in called then Force(L1Recommendation)
    else if L1Recommendation !in succeeded then NoTools
    else if c.recommendation == Remove then NoTools
    else if c.developer || !(c.level == L0 || c.level == L0Spelling) then NoTools
    else if DirectGrantAllowed(c) && RegistrationRisk !in called then Force(RegistrationRisk)
    else if DirectGrantAllowed(c) && RegistrationRisk in succeeded && GrantL1 !in called then Force(GrantL1)
    else NoTools
  }

  /** The activity tools are forced before the chain, in this order. */
  function ActivityLinks(c: UserContext, drawing: bool): seq<Link> {
    [ Link(PublicActivityWorkflow(c, drawing), ServiceFacts),
      Link(DiscountWorkflow(c), WeeklyDiscount),
      Link(GiftWorkflow(c), NewUserGift) ]
  }

  function StepChoice(c: UserContext, called: set<ToolName>, succeeded: set<ToolName>, drawing: bool): ToolChoice {
    var choice := ContextChoice(c, drawing);
    if c.titleNeeded then choice
    else if CreateKeyWorkflow(c) then CreateKeyChoice(c, called, succeeded)
    else if SupportWorkflow(c, drawing) then SupportChoice(c, called, succeeded)
    else if ImageWorkflow(c, drawing) then
      if ImageGeneration !in called then Force(ImageGeneration) else NoTools
    else
      match NextIn(Pick(ActivityLinks(c, drawing)), called, succeeded)
      case Read(t) => Force(t)
      case FailedRead => NoTools
      case Complete =>
        if RecommendationWorkflow(c) then RecommendationChoice(c, called, succeeded)
        else
          var next := NextIn(Chain(c, drawing), called, succeeded);
          if next.Read? && Allowed(next.tool, c, drawing) then Force(next.tool)
          else if next.FailedRead? then NoTools
          else if choice.Named? && choice.tool in called then Auto
          else choice
  }

  /** No workflow takes over before the activity tools. */
  predicate ActivityFirst(c: UserContext, drawing: bool) {
    !CreateKeyWorkflow(c) && !SupportWorkflow(c, drawing) && !ImageWorkflow(c, drawing)
  }

  /** No workflow other than the chain and its activity tools takes over the choice. */
  predicate Plain(c: UserContext, drawing: bool) {
    ActivityFirst(c, drawing) && !RecommendationWorkflow(c)
  }

  predicate NoFailure(chain: seq<ToolName>, called: set<ToolName>, succeeded: set<ToolName>) {
    forall t | t in chain && t in called :: t in succeeded
  }

  lemma {:induction false} NextInProgress(chain: seq<ToolName>, called: set<ToolName>, succeeded: set<ToolName>)
    requires NoFailure(chain, called, succeeded)
    ensures match NextIn(chain, called, succeeded)
            case Read(t) => t in chain && t !in called
            case FailedRead => false
            case Complete => forall t | t in chain :: t in called
    decreases |chain|
  {
    if chain != [] && chain[0] in called {
      assert forall t | t in chain[1..] :: t in chain;
      NextInProgress(chain[1..], called, succeeded);
      assert forall t | t in chain :: t == chain[0] || t in chain[1..];
    }
  }

  lemma {:induction false} ActivityInChain(c: UserContext, drawing: bool, t: ToolName)
    requires !c.blankRequest && t in Pick(ActivityLinks(c, drawing))
    ensures t in Chain(c, drawing)
  {
    PickMember(ActivityLinks(c, drawing), t);
    ChainMember(c, drawing, t);
    var i :| 0 <= i < 3 && ActivityLinks(c, drawing)[i] == Link(true, t);
    var links := Links(c, drawing);
    assert links[2] == Link(c.publicActivity, ServiceFacts);
    assert links[3] == Link(GiftWorkflow(c), NewUserGift) && links[4] == Link(DiscountWorkflow(c), WeeklyDiscount);
  }

  /** While a link is missing and no called link has failed, the step forces an
      uncalled link: the model cannot answer, and cannot read anything else first. */
  lemma {:induction false} ChainForced(c: UserContext, called: set<ToolName>, succeeded: set<ToolName>, drawing: bool)
    requires Plain(c, drawing) && !c.titleNeeded
    requires NoFailure(Chain(c, drawing), called, succeeded)
    requires exists t :: t in Chain(c, drawing) && t !in called
    ensures var choice := StepChoice(c, called, succeeded, drawing);
            choice.Named? && choice.tool in Chain(c, drawing) && choice.tool !in called
  {
    var activity := Pick(ActivityLinks(c, drawing));
    var chain := Chain(c, drawing);
    forall t | t in activity ensures t in chain {
      ActivityInChain(c, drawing, t);
    }
    NextInProgress(activity, called, succeeded);
    NextInProgress(chain, called, succeeded);
    var next := NextIn(chain, called, succeeded);
    ChainAllowed(c, drawing, next.tool);
  }

  // ---------- order of the forced reads ----------

  /** `x` stands before `t` in the chain. */
  ghost predicate Before(chain: seq<ToolName>, x: ToolName, t: ToolName) {
    exists i, j :: 0 <= i < j < |chain| && chain[i] == x && chain[j] == t
  }

  /** Every tool before `t` that was called has succeeded. */
  ghost predicate NoEarlierFailure(
    chain: seq<ToolName>, t: ToolName, called: set<ToolName>, succeeded: set<ToolName>)
  {
    forall x | Before(chain, x, t) && x in called :: x in succeeded
  }

  lemma {:induction false} NextInOrder(chain: seq<ToolName>, called: set<ToolName>, succeeded: set<ToolName>)
    returns (j: nat)
    requires NextIn(chain, called, succeeded).Read?
    ensures j < |chain| && chain[j] == NextIn(chain, called, succeeded).tool && chain[j] !in called
    ensures forall i | 0 <= i < j :: chain[i] in called && chain[i] in succeeded
    decreases |chain|
  {
    if chain[0] !in called {
      j := 0;
    } else {
      var k := NextInOrder(chain[1..], called, succeeded);
      j := k + 1;
    }
  }

  lemma {:induction false} CompleteMeansCalled(chain: seq<ToolName>, called: set<ToolName>, succeeded: set<ToolName>)
    requires NextIn(chain, called, succeeded).Complete?
    ensures forall t | t in chain :: t in called
    decreases |chain|
  {
    if chain != [] {
      CompleteMeansCalled(chain[1..], called, succeeded);
    }
  }

  lemma {:induction false} PickDistinct(links: seq<Link>)
    requires forall i, j :: 0 <= i < j < |links| && links[i].wanted && links[j].wanted ==>
               links[i].tool != links[j].tool
    ensures Distinct(Pick(links))
    decreases |links|
  {
    if links != [] {
      PickDistinct(links[1..]);
      PickMember(links[1..], links[0].tool);
    }
  }

  lemma {:induction false} ChainDistinct(c: UserContext, drawing: bool)
    ensures Distinct(Chain(c, drawing)) && Distinct(Pick(ActivityLinks(c, drawing)))
  {
    PickDistinct(Links(c, drawing));
    PickDistinct(ActivityLinks(c, drawing));
  }

  lemma {:induction false} PickAt(links: seq<Link>, a: nat) returns (i: nat)
    requires a < |links| && links[a].wanted
    ensures i < |Pick(links)| && Pick(links)[i] == links[a].tool && i <= a
    decreases |links|
  {
    if a == 0 {
      i := 0;
    } else {
      i := PickAt(links[1..], a - 1);
      i := i + if links[0].wanted then 1 else 0;
    }
  }

  lemma {:induction false} PickBefore(links: seq<Link>, a: nat, b: nat)
    requires a < b < |links| && links[a].wanted && links[b].wanted
    ensures Before(Pick(links), links[a].tool, links[b].tool)
    decreases |links|
  {
    var rest := Pick(links[1..]);
    if a == 0 {
      var j := PickAt(links[1..], b - 1);
      assert Pick(links)[0] == links[0].tool && Pick(links)[j + 1] == links[b].tool;
    } else {
      PickBefore(links[1..], a - 1, b - 1);
      var i, j :| 0 <= i < j < |rest| && rest[i] == links[a].tool && rest[j] == links[b].tool;
      var shift := if links[0].wanted then 1 else 0;
      assert Pick(links)[i + shift] == rest[i] && Pick(links)[j + shift] == rest[j];
    }
  }

  /** Two tools in this order come from two links in this order. */
  lemma {:induction false} PickedBefore(links: seq<Link>, x: ToolName, t: ToolName) returns (a: nat, b: nat)
    requires Before(Pick(links), x, t)
    ensures a < b < |links| && links[a] == Link(true, x) && links[b] == Link(true, t)
    decreases |links|
  {
    var picked, rest := Pick(links), Pick(links[1..]);
    var i, j :| 0 <= i < j < |picked| && picked[i] == x && picked[j] == t;
    var shift := if links[0].wanted then 1 else 0;
    assert forall k | shift <= k < |picked| :: picked[k] == rest[k - shift];
    if i < shift {
      a := 0;
      assert t in rest;
      PickMember(links[1..], t);
      var k :| 0 <= k < |links[1..]| && links[1..][k] == Link(true, t);
      b := k + 1;
    } else {
      assert Before(rest, x, t);
      a, b := PickedBefore(links[1..], x, t);
      a, b := a + 1, b + 1;
    }
  }

  /** How many of the three activity workflows a request starts. */
  function ActivityCount(c: UserContext, drawing: bool): nat {
    Extra(PublicActivityWorkflow(c, drawing)) + Extra(GiftWorkflow(c)) + Extra(DiscountWorkflow(c))
  }

  /** Requests in which an activity tool other than the first stands behind a chain
      tool that is no earlier activity tool: all three activities, where the gift
      stands before the discount but is forced after it, or two of them behind plan
      offers or a recommendation. */
  predicate Overtakes(c: UserContext, drawing: bool) {
    && ActivityFirst(c, drawing) && !c.blankRequest
    && (ActivityCount(c, drawing) == 3
        || (ActivityCount(c, drawing) == 2 && (PlanOfferWorkflow(c, drawing) || c.intent == Recommendation)))
  }

  /** The activity tool forced second and a chain tool before it that is not the first. */
  lemma {:induction false} OvertakenTool(c: UserContext, drawing: bool) returns (x: ToolName)
    requires Overtakes(c, drawing)
    ensures var activity := Pick(ActivityLinks(c, drawing));
            |activity| >= 2 && x != activity[0] && x != activity[1] && Before(Chain(c, drawing), x, activity[1])
  {
    var links, activity := Links(c, drawing), ActivityLinks(c, drawing);
    ActivityPair(c, drawing);
    var second := if DiscountWorkflow(c) && PublicActivityWorkflow(c, drawing) then 4 else 3;
    var first := if ActivityCount(c, drawing) == 3 then 3 else if PlanOfferWorkflow(c, drawing) then 0 else 1;
    x := links[first].tool;
    PickBefore(links, first, second);
  }

  lemma {:induction false} ActivityPair(c: UserContext, drawing: bool)
    ensures var activity := Pick(ActivityLinks(c, drawing));
            && |activity| == ActivityCount(c, drawing)
            && (|activity| >= 1 ==> activity[0] == if PublicActivityWorkflow(c, drawing) then ServiceFacts
                                                   else if DiscountWorkflow(c) then WeeklyDiscount else NewUserGift)
            && (|activity| >= 2 ==> activity[1] == if PublicActivityWorkflow(c, drawing) && DiscountWorkflow(c)
                                                   then WeeklyDiscount else NewUserGift)
            && (|activity| == 3 ==> activity[2] == NewUserGift)
  {
    var links := ActivityLinks(c, drawing);
    assert links[1..][1..] == [links[2]] && [links[2]][1..] == [];
    assert Pick([links[2]]) == if links[2].wanted then [NewUserGift] else [];
    assert Pick(links[1..]) == (if links[1].wanted then [WeeklyDiscount] else []) + Pick([links[2]]);
    assert Pick(links) == (if links[0].wanted then [ServiceFacts] else []) + Pick(links[1..]);
  }

  /** Otherwise only earlier activity tools stand before an activity tool but the first. */
  lemma {:induction false} NothingOvertaken(c: UserContext, drawing: bool, k: nat, x: ToolName)
    requires ActivityFirst(c, drawing) && !c.blankRequest && !Overtakes(c, drawing)
    requires 1 <= k < |Pick(ActivityLinks(c, drawing))|
    requires Before(Chain(c, drawing), x, Pick(ActivityLinks(c, drawing))[k])
    ensures x in Pick(ActivityLinks(c, drawing))[..k]
  {
    var a, b := PickedBefore(Links(c, drawing), x, Pick(ActivityLinks(c, drawing))[k]);
    EarlierLink(c, drawing, k, a, b);
  }

  lemma {:induction false} EarlierLink(c: UserContext, drawing: bool, k: nat, a: nat, b: nat)
    requires ActivityFirst(c, drawing) && !c.blankRequest && !Overtakes(c, drawing) && a < b < 9
    requires 1 <= k < |Pick(ActivityLinks(c, drawing))|
    requires Links(c, drawing)[a].wanted && Links(c, drawing)[b] == Link(true, Pick(ActivityLinks(c, drawing))[k])
    ensures Links(c, drawing)[a].tool in Pick(ActivityLinks(c, drawing))[..k]
  {
    ActivityPair(c, drawing);
    var activity := Pick(ActivityLinks(c, drawing));
    assert activity[k] == (if b == 4 then WeeklyDiscount else NewUserGift) && 3 <= b <= 4;
    assert k == 1 && ActivityCount(c, drawing) == 2;
    assert activity[..1] == [activity[0]];
  }

  /** What the condition on the request means for its chain. */
  lemma {:induction false} OvertakesMeans(c: UserContext, drawing: bool)
    requires ActivityFirst(c, drawing) && !c.blankRequest
    ensures var activity := Pick(ActivityLinks(c, drawing));
            Overtakes(c, drawing)
            <==> exists k, x :: 1 <= k < |activity| && x !in activity[..k] && Before(Chain(c, drawing), x, activity[k])
  {
    var activity, chain := Pick(ActivityLinks(c, drawing)), Chain(c, drawing);
    if Overtakes(c, drawing) {
      var x := OvertakenTool(c, drawing);
      assert x !in activity[..1];
    } else {
      forall k, x | 1 <= k < |activity| && Before(chain, x, activity[k]) ensures x in activity[..k] {
        NothingOvertaken(c, drawing, k, x);
      }
    }
  }

  lemma {:induction false} TitleChangesNoActivity(c: UserContext, drawing: bool, title: bool)
    ensures ActivityLinks(c.(titleNeeded := title), drawing) == ActivityLinks(c, drawing)
  {
    TitleChangesNoWorkflow(c, drawing, title);
  }

  lemma {:induction false} TitleChangesNoOvertaking(c: UserContext, drawing: bool, title: bool)
    ensures Overtakes(c.(titleNeeded := title), drawing) == Overtakes(c, drawing)
  {
    TitleChangesNoWorkflow(c, drawing, title);
  }

  /** The tools whose first one is named by every turn until it is called. */
  function Lead(c: UserContext, drawing: bool): seq<ToolName> {
    if CreateKeyWorkflow(c) then if c.createKey == RequestKey then [ServiceFacts] else []
    else if ActivityFirst(c, drawing) then Pick(ActivityLinks(c, drawing))
    else []
  }

  lemma {:induction false} LeadIsForced(
    c: UserContext, called: set<ToolName>, succeeded: set<ToolName>, drawing: bool)
    requires !c.titleNeeded && Lead(c, drawing) != [] && Lead(c, drawing)[0] !in called
    ensures StepChoice(c, called, succeeded, drawing) == Force(Lead(c, drawing)[0])
  {
  }

  lemma {:induction false} TitleChangesNoLead(c: UserContext, drawing: bool, title: bool)
    ensures Lead(c.(titleNeeded := title), drawing) == Lead(c, drawing)
  {
    TitleChangesNoActivity(c, drawing, title);
  }

  /** The tools of the other workflows are not in the chain. */
  lemma {:induction false} ChainTool(c: UserContext, drawing: bool, t: ToolName)
    requires t in Chain(c, drawing)
    ensures t in {PlanOffers, L1Recommendation, ServiceFacts, NewUserGift, WeeklyDiscount, AvailableModels,
                  ModelPricing, BountyData}
  {
    ChainMember(c, drawing, t);
    var i :| 0 <= i < 9 && Links(c, drawing)[i] == Link(true, t);
  }

  /** A recommendation opens its chain. */
  lemma {:induction false} NothingBeforeRecommendation(c: UserContext, drawing: bool)
    requires c.intent == Recommendation && !c.blankRequest
    ensures forall x :: !Before(Chain(c, drawing), x, L1Recommendation)
  {
    if x :| Before(Chain(c, drawing), x, L1Recommendation) {
      var a, b := PickedBefore(Links(c, drawing), x, L1Recommendation);
    }
  }

  /** The only chain tool another workflow forces is the leading one. */
  lemma {:induction false} OtherWorkflowForces(
    c: UserContext, drawing: bool, called: set<ToolName>, succeeded: set<ToolName>, t: ToolName)
    requires !c.titleNeeded && !ActivityFirst(c, drawing)
    requires StepChoice(c, called, succeeded, drawing) == Force(t) && t in Chain(c, drawing)
    ensures Lead(c, drawing) == [t] && t !in called
  {
    ChainTool(c, drawing, t);
  }

  lemma {:induction false} RecommendationForces(
    c: UserContext, drawing: bool, called: set<ToolName>, succeeded: set<ToolName>, t: ToolName)
    requires RecommendationWorkflow(c) && t in Chain(c, drawing)
    requires RecommendationChoice(c, called, succeeded) == Force(t)
    ensures NoEarlierFailure(Chain(c, drawing), t, called, succeeded)
  {
    RecommendationTools(c, called, succeeded, t);
    ChainTool(c, drawing, t);
    NothingBeforeRecommendation(c, drawing);
    NothingEarlier(Chain(c, drawing), t, called, succeeded);
  }

  lemma {:induction false} RecommendationTools(
    c: UserContext, called: set<ToolName>, succeeded: set<ToolName>, t: ToolName)
    requires RecommendationChoice(c, called, succeeded) == Force(t)
    ensures t in {L1Recommendation, RegistrationRisk, GrantL1}
  {
  }

  lemma {:induction false} NothingEarlier(
    chain: seq<ToolName>, t: ToolName, called: set<ToolName>, succeeded: set<ToolName>)
    requires forall x :: !Before(chain, x, t)
    ensures NoEarlierFailure(chain, t, called, succeeded)
  {
  }

  /** In a state where the leading tool has been called, or no tool of the chain has, a
      forced chain tool has no failed one before it. */
  lemma {:induction false} ForcedKeepsOrder(
    c: UserContext, drawing: bool, called: set<ToolName>, succeeded: set<ToolName>, t: ToolName)
    requires !c.titleNeeded && !Overtakes(c, drawing)
    requires StepChoice(c, called, succeeded, drawing) == Force(t) && t in Chain(c, drawing)
    requires Lead(c, drawing) == [] || Lead(c, drawing)[0] in called
             || forall x | x in Chain(c, drawing) :: x !in called
    ensures NoEarlierFailure(Chain(c, drawing), t, called, succeeded)
  {
    if !ActivityFirst(c, drawing) {
      OtherWorkflowForces(c, drawing, called, succeeded, t);
      NothingCalledYet(Chain(c, drawing), t, called, succeeded);
    } else if NextIn(Pick(ActivityLinks(c, drawing)), called, succeeded).Read? {
      ActivityKeepsOrder(c, drawing, called, succeeded, t);
    } else if RecommendationWorkflow(c) {
      RecommendationForces(c, drawing, called, succeeded, t);
    } else {
      ChainKeepsOrder(c, drawing, called, succeeded, t);
    }
  }

  lemma {:induction false} NothingCalledYet(
    chain: seq<ToolName>, t: ToolName, called: set<ToolName>, succeeded: set<ToolName>)
    requires forall x | x in chain :: x !in called
    ensures NoEarlierFailure(chain, t, called, succeeded)
  {
  }

  lemma {:induction false} ActivityKeepsOrder(
    c: UserContext, drawing: bool, called: set<ToolName>, succeeded: set<ToolName>, t: ToolName)
    requires ActivityFirst(c, drawing) && !c.blankRequest && !Overtakes(c, drawing)
    requires NextIn(Pick(ActivityLinks(c, drawing)), called, succeeded) == Read(t)
    requires var activity := Pick(ActivityLinks(c, drawing));
             activity == [] || activity[0] in called || forall x | x in Chain(c, drawing) :: x !in called
    ensures NoEarlierFailure(Chain(c, drawing), t, called, succeeded)
  {
    var k := NextInOrder(Pick(ActivityLinks(c, drawing)), called, succeeded);
    forall x | Before(Chain(c, drawing), x, t) && x in called ensures x in succeeded {
      if k >= 1 {
        NothingOvertaken(c, drawing, k, x);
      }
    }
  }

  lemma {:induction false} ChainKeepsOrder(
    c: UserContext, drawing: bool, called: set<ToolName>, succeeded: set<ToolName>, t: ToolName)
    requires Plain(c, drawing) && !c.titleNeeded && !NextIn(Pick(ActivityLinks(c, drawing)), called, succeeded).Read?
    requires StepChoice(c, called, succeeded, drawing) == Force(t) && t in Chain(c, drawing)
    ensures NoEarlierFailure(Chain(c, drawing), t, called, succeeded)
  {
    var chain := Chain(c, drawing);
    if NextIn(chain, called, succeeded).Read? {
      var j := NextInOrder(chain, called, succeeded);
      ChainAllowed(c, drawing, chain[j]);
      ChainDistinct(c, drawing);
      InChainOrder(chain, j, t, called, succeeded);
    } else {
      CompleteMeansCalled(chain, called, succeeded);
    }
  }

  lemma {:induction false} InChainOrder(
    chain: seq<ToolName>, j: nat, t: ToolName, called: set<ToolName>, succeeded: set<ToolName>)
    requires Distinct(chain) && j < |chain| && chain[j] == t && forall i | 0 <= i < j :: chain[i] in succeeded
    ensures NoEarlierFailure(chain, t, called, succeeded)
  {
  }

  // ---------- the step budget ----------

  datatype Settings = Settings(maxSteps: int, loopEnabled: bool)

  const AGENT_MAX_STEPS := 32

  function Extra(b: bool): nat {
    if b then 1 else 0
  }

  function RecommendationMinSteps(c: UserContext): int {
    if !RecommendationWorkflow(c) then 0
    else 2 + (if c.recommendation == Revise && DirectGrantAllowed(c) then 2 else 0) + Extra(c.titleNeeded)
  }

  function CreateKeyMinSteps(c: UserContext): int {
    if !CreateKeyWorkflow(c) then 0 else 2 + Extra(c.createKey == RequestKey) + Extra(c.titleNeeded)
  }

  function ImageMinSteps(c: UserContext, drawing: bool): int {
    if ImageWorkflow(c, drawing) then 2 else 0
  }

  function ActivityMinSteps(c: UserContext, drawing: bool): int {
    if ActivityCount(c, drawing) == 0 then 0 else 1 + ActivityCount(c, drawing) + Extra(c.titleNeeded)
  }

  function SupportMinSteps(c: UserContext, drawing: bool): int {
    if !SupportWorkflow(c, drawing) then 0 else 2 + Extra(c.supportBooking) + Extra(c.titleNeeded)
  }

  function ChainSteps(c: UserContext, drawing: bool): int {
    if Chain(c, drawing) == [] then 0 else |Chain(c, drawing)| + 1 + Extra(c.titleNeeded)
  }

  function TitleMinSteps(c: UserContext, drawing: bool): int {
    if !c.titleNeeded then 0
    else if ContextChoice(c.(titleNeeded := false), drawing).Named? then 3
    else 2
  }

  /** Booking authority found in the stored conversation; `booked` is that lookup. */
  predicate SupportBookingForced(settings: Settings, c: UserContext, booked: bool) {
    c.supportBooking || (!settings.loopEnabled && booked)
  }

  predicate AnyForced(settings: Settings, c: UserContext, booked: bool, drawing: bool) {
    AssessmentRequired(c) || c.titleNeeded || RecommendationWorkflow(c) || CreateKeyWorkflow(c)
    || ImageWorkflow(c, drawing)
    || PublicActivityWorkflow(c, drawing) || GiftWorkflow(c) || DiscountWorkflow(c)
    || SupportBookingForced(settings, c, booked) || SupportWorkflow(c, drawing) || Chain(c, drawing) != []
  }

  /** The configured number of steps, raised to what the other workflows need. */
  function WorkflowSteps(settings: Settings, c: UserContext, booked: bool, drawing: bool): (steps: int)
    ensures steps >= 1 && steps >= RecommendationMinSteps(c) && steps >= CreateKeyMinSteps(c)
    ensures steps >= ImageMinSteps(c, drawing) && steps >= ActivityMinSteps(c, drawing)
    ensures steps >= SupportMinSteps(c, drawing)
    ensures SupportBookingForced(settings, c, booked) ==> steps >= 3
  {
    var base := Max(1, if settings.maxSteps > AGENT_MAX_STEPS then AGENT_MAX_STEPS else settings.maxSteps);
    var s1 := Max(base, RecommendationMinSteps(c));
    var s2 := Max(s1, CreateKeyMinSteps(c));
    var s3 := Max(s2, ImageMinSteps(c, drawing));
    var s4 := Max(s3, ActivityMinSteps(c, drawing));
    var s5 := Max(s4, if SupportBookingForced(settings, c, booked) then 3 else 0);
    Max(s5, SupportMinSteps(c, drawing))
  }

  function MaxSteps(settings: Settings, c: UserContext, booked: bool, drawing: bool): (steps: int)
    ensures steps >= 1
    ensures c.titleNeeded ==> steps >= 2
    ensures Chain(c, drawing) != [] ==> steps >= |Chain(c, drawing)| + 1 + Extra(c.titleNeeded)
    ensures AnyForced(settings, c, booked, drawing) ==> steps >= WorkflowSteps(settings, c, booked, drawing)
  {
    if !settings.loopEnabled && !AnyForced(settings, c, booked, drawing) then 1
    else
      Max(Max(WorkflowSteps(settings, c, booked, drawing), TitleMinSteps(c, drawing)), ChainSteps(c, drawing))
  }

  predicate AgentEnabled(settings: Settings, c: UserContext, booked: bool, drawing: bool) {
    MaxSteps(settings, c, booked, drawing) > 1 && (settings.loopEnabled || AnyForced(settings, c, booked, drawing))
  }
}
