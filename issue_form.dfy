/**
 * The tenant intake form (`src/components/IssueForm.tsx`): emergency
 * keyword detection, category classification, the canned replies of the
 * assistant and the step machine that drives the form.
 */
module IssueForm {
  import opened Wrappers
  import opened Seqs
  import opened Strings

  // ---------------------------------------------------------------------
  // Keyword tables

  /** `EMERGENCY_KEYWORDS`, in the order they are tried. */
  const EmergencyKeywords: seq<string> := ["gas", "fire", "flood", "smoke", "electrical", "burst", "leak"]

  /** `emergencyNumber`. */
  const EmergencyNumber: string := "911"

  /** One row of `ISSUE_CATEGORIES`. */
  datatype IssueCategory = IssueCategory(id: string, name: string, pdfUrl: Option<string>, keywords: seq<string>)

  /** `ISSUE_CATEGORIES`, in the order `detectCategory` tries them. */
  const IssueCategories: seq<IssueCategory> := [
    IssueCategory("washing-machine", "Washing Machine Not Working", Some("/guides/washing-machine.pdf"),
                  ["washing", "machine", "washer", "laundry", "clothes"]),
    IssueCategory("heating", "Heating Issue", Some("/guides/heating.pdf"),
                  ["heat", "heating", "cold", "boiler", "radiator", "temperature"]),
    IssueCategory("plumbing", "Plumbing Problem", Some("/guides/plumbing.pdf"),
                  ["water", "leak", "tap", "toilet", "sink", "drain", "plumbing", "pipe", "drip"]),
    IssueCategory("electrical", "Electrical Problem", Some("/guides/electrical.pdf"),
                  ["light", "power", "socket", "switch", "electric", "outlet", "wire", "circuit"]),
    IssueCategory("appliance", "Other Appliance Issue", Some("/guides/appliances.pdf"),
                  ["appliance", "fridge", "oven", "stove", "dishwasher", "microwave", "freezer"]),
    IssueCategory("other", "Other Issue", None, [])
  ]

  /** The words `handleUserResponse` reads as a request for help, for submission, or as "solved". */
  const GuideWords: seq<string> := ["solve", "fix", "guide", "how to", "help me"]
  const SubmitWords: seq<string> := ["submit", "report", "done", "finish"]
  const SolvedWords: seq<string> := ["solved", "fixed", "working now"]

  /** The test `keyword => text.includes(keyword)`. */
  function OccursIn(text: string): string -> bool {
    (keyword: string) => Contains(text, keyword)
  }

  /** `words.some(word => text.includes(word))`. */
  predicate MentionsAny(text: string, words: seq<string>) {
    exists k :: 0 <= k < |words| && Contains(text, words[k])
  }

  // ---------------------------------------------------------------------
  // Emergency detection

  /**
   * The keyword the emergency effect finds: the first keyword, in table
   * order, that occurs in the lower-cased description.
   */
  function EmergencyKeyword(description: string): (r: Option<string>)
    ensures r.None? <==> forall k :: 0 <= k < |EmergencyKeywords| ==> !Contains(ToLower(description), EmergencyKeywords[k])
    ensures r.Some? ==> exists k ::
      && 0 <= k < |EmergencyKeywords| && EmergencyKeywords[k] == r.value
      && Contains(ToLower(description), r.value)
      && forall j :: 0 <= j < k ==> !Contains(ToLower(description), EmergencyKeywords[j])
  {
    Find(EmergencyKeywords, OccursIn(ToLower(description)))
  }

  /**
   * The banner label of a keyword is the keyword with its first letter
   * upper-cased, and lower-casing it again, as the emergency reply does,
   * gives back the keyword.
   */
  lemma EmergencyLabel(keyword: string)
    requires keyword in EmergencyKeywords
    ensures Capitalize(keyword)[1..] == keyword[1..]
    ensures 'A' <= Capitalize(keyword)[0] <= 'Z'
    ensures ToLower(Capitalize(keyword)) == keyword
  {
    assert IsLowerCase(keyword) && 'a' <= keyword[0] <= 'z';
    LowerCapitalize(keyword);
  }

  // ---------------------------------------------------------------------
  // Category detection

  /** The test `category.keywords.some(keyword => text.includes(keyword))`. */
  function CategoryMatches(text: string): IssueCategory -> bool {
    (category: IssueCategory) => MentionsAny(text, category.keywords)
  }

  /**
   * The category `detectCategory` reports: the name of the first category,
   * in table order, one of whose keywords occurs in the lower-cased text.
   */
  function CategoryOf(text: string): (r: Option<string>)
    ensures r.None? <==> forall c :: 0 <= c < |IssueCategories| ==> !MentionsAny(ToLower(text), IssueCategories[c].keywords)
    ensures r.Some? ==> exists c ::
      && 0 <= c < |IssueCategories| && IssueCategories[c].name == r.value
      && MentionsAny(ToLower(text), IssueCategories[c].keywords)
      && forall d :: 0 <= d < c ==> !MentionsAny(ToLower(text), IssueCategories[d].keywords)
  {
    match FindIndex(IssueCategories, CategoryMatches(ToLower(text)))
    case None => None
    case Some(c) => Some(IssueCategories[c].name)
  }

  /** The keyword-less "Other Issue" row is never the detected category. */
  lemma CategoryNeverOther(text: string)
    ensures CategoryOf(text) != Some("Other Issue")
  {
    assert !MentionsAny(ToLower(text), IssueCategories[5].keywords);
  }

  /** `detectCategory`: the first-match loop over the category table. */
  method DetectCategory(text: string) returns (r: Option<string>)
    ensures r == CategoryOf(text)
  {
    var lowercaseText := ToLower(text);
    for c := 0 to |IssueCategories|
      invariant forall d :: 0 <= d < c ==> !MentionsAny(lowercaseText, IssueCategories[d].keywords)
    {
      if MentionsAny(lowercaseText, IssueCategories[c].keywords) {
        assert CategoryMatches(lowercaseText)(IssueCategories[c]);
        return Some(IssueCategories[c].name);
      }
    }
    return None;
  }

  // ---------------------------------------------------------------------
  // The assistant's replies

  /** The canned replies of the assistant, with the values they quote. */
  datatype Reply =
    | EmergencyWarning(emergencyType: string)
    | CategoryAcknowledged(category: string)
    | AskWhenNoticed
    | OfferGuide(category: string)
    | AskWhatNeedsFixing
    | OfferSubmission
    | GladItIsSolved
    | FollowUp(known: Option<string>)

  /** The extra question the first reply adds for a detected category. */
  function CategoryQuestion(category: string): string {
    if Contains(category, "Washing Machine") then " Is the machine not turning on, making unusual noises, or leaking water?"
    else if Contains(category, "Heating") then " Is your heating not working at all, or is it not reaching the desired temperature?"
    else if Contains(category, "Plumbing") then " Can you tell me more about where exactly you're seeing water or leaking?"
    else if Contains(category, "Electrical") then " Are you experiencing power outages, flickering lights, or problems with specific outlets?"
    else ""
  }

  /** The follow-up question of the default branch for a known category. */
  function FollowUpText(category: string): string {
    if Contains(category, "Washing Machine") then
      "Thank you for those details. It sounds like you might be experiencing a common issue with washing machines. Would you like to see some troubleshooting steps that could potentially solve your problem?"
    else if Contains(category, "Heating") then
      "I understand your heating system is causing problems. Before we proceed, have you checked if the thermostat is set correctly and if your radiators might need bleeding?"
    else if Contains(category, "Plumbing") then
      "Water issues can be concerning. Is the problem constant or intermittent? And have you tried turning off the water supply to the affected area?"
    else if Contains(category, "Electrical") then
      "Electrical problems should be handled carefully. Have you checked if any circuit breakers have tripped? Would you like to see some safe troubleshooting steps?"
    else
      "Thanks for providing that information. Would you like to see a troubleshooting guide that might help resolve your issue, or would you prefer to submit this report for professional assistance?"
  }

  /** The text shown for a reply. */
  function ReplyText(reply: Reply): string {
    match reply
    case EmergencyWarning(emergencyType) =>
      EmergencyWarningOpening(emergencyType) + EmergencyNumber + " right away."
    case CategoryAcknowledged(category) =>
      "I see you're having an issue with " + ToLower(category)
      + ". Can you tell me more details about the problem you're experiencing?" + CategoryQuestion(category)
    case AskWhenNoticed =>
      "Thank you for reporting this issue. Could you provide more details about when you first noticed the problem and if it's getting worse?"
    case OfferGuide(category) =>
      "I have a troubleshooting guide for " + category + " that might help. Would you like to see it?"
    case AskWhatNeedsFixing =>
      "I'd like to help you fix this. Could you tell me a bit more about what specific appliance or system is having issues?"
    case OfferSubmission =>
      "Would you like to proceed to submitting your issue report? You'll need to provide some contact details so we can follow up with you."
    case GladItIsSolved =>
      "I'm glad to hear that! Is there anything else I can help you with, or would you like to end this session?"
    case FollowUp(None) =>
      "I appreciate the additional information. Based on what you've shared, could you clarify which specific appliance or system is having issues? This will help me provide more targeted assistance."
    case FollowUp(Some(category)) => FollowUpText(category)
  }

  /** The emergency warning up to the number it asks the tenant to call. */
  function EmergencyWarningOpening(emergencyType: string): string {
    "I notice you mentioned " + ToLower(emergencyType)
    + ". This is potentially dangerous and requires immediate attention. Please call the emergency number "
  }

  /** The emergency warning gives the number to call, and the guide offer names the category. */
  lemma ReplyTextQuotes(reply: Reply)
    ensures reply.EmergencyWarning? ==> Contains(ReplyText(reply), EmergencyNumber)
    ensures reply.OfferGuide? ==> Contains(ReplyText(reply), reply.category)
  {
    match reply
    case EmergencyWarning(emergencyType) =>
      ContainsSpliced(EmergencyWarningOpening(emergencyType), EmergencyNumber, " right away.");
    case OfferGuide(category) =>
      ContainsSpliced("I have a troubleshooting guide for ", category, " that might help. Would you like to see it?");
    case _ =>
  }

  /** The first reply, after the description is analysed: an emergency first, then a detected category. */
  function AnalysisReply(isEmergency: bool, emergencyType: string, category: Option<string>): (r: Reply)
    ensures isEmergency <==> r.EmergencyWarning?
    ensures r.EmergencyWarning? ==> r.emergencyType == emergencyType
    ensures r.CategoryAcknowledged? <==> !isEmergency && category.Some?
    ensures r.CategoryAcknowledged? ==> r.category == category.value
    ensures r.EmergencyWarning? || r.CategoryAcknowledged? || r == AskWhenNoticed
  {
    if isEmergency then EmergencyWarning(emergencyType)
    else if category.Some? then CategoryAcknowledged(category.value)
    else AskWhenNoticed
  }

  /** The branches of `handleUserResponse`, checked in this order. */
  datatype ChatBranch = GuideBranch | SubmitBranch | SolvedBranch | FollowUpBranch

  /** The branch a message selects: guide words first, then submit words, then solved words. */
  function ChatBranchOf(message: string): (r: ChatBranch)
    ensures r == GuideBranch <==> MentionsAny(ToLower(message), GuideWords)
    ensures r == SubmitBranch <==> !MentionsAny(ToLower(message), GuideWords) && MentionsAny(ToLower(message), SubmitWords)
    ensures r == SolvedBranch ==> MentionsAny(ToLower(message), SolvedWords)
  {
    var lowercaseMsg := ToLower(message);
    if MentionsAny(lowercaseMsg, GuideWords) then GuideBranch
    else if MentionsAny(lowercaseMsg, SubmitWords) then SubmitBranch
    else if MentionsAny(lowercaseMsg, SolvedWords) then SolvedBranch
    else FollowUpBranch
  }

  /**
   * "solved" contains "solve" and "fixed" contains "fix", so a message is
   * taken as "solved" exactly when it says "working now" and none of the
   * guide or submit words.
   */
  lemma SolvedOnlyByWorkingNow(message: string)
    ensures ChatBranchOf(message) == SolvedBranch <==> (
      && Contains(ToLower(message), "working now")
      && !MentionsAny(ToLower(message), GuideWords)
      && !MentionsAny(ToLower(message), SubmitWords))
  {
    var lowercaseMsg := ToLower(message);
    if Contains(lowercaseMsg, "solved") {
      ContainsPrefix(lowercaseMsg, "solved", "solve");
      assert Contains(lowercaseMsg, GuideWords[0]);
    }
    if Contains(lowercaseMsg, "fixed") {
      ContainsPrefix(lowercaseMsg, "fixed", "fix");
      assert Contains(lowercaseMsg, GuideWords[1]);
    }
    if Contains(lowercaseMsg, "working now") {
      assert Contains(lowercaseMsg, SolvedWords[2]);
    }
  }

  /** The reply to a message, given the category known when the message arrived. */
  function ChatReply(message: string, category: Option<string>): (r: Reply)
    ensures r.OfferGuide? <==> ChatBranchOf(message) == GuideBranch && category.Some?
    ensures r.OfferGuide? ==> r.category == category.value
    ensures r == AskWhatNeedsFixing <==> ChatBranchOf(message) == GuideBranch && category.None?
    ensures r == OfferSubmission <==> ChatBranchOf(message) == SubmitBranch
    ensures r == GladItIsSolved <==> ChatBranchOf(message) == SolvedBranch
    ensures r.FollowUp? <==> ChatBranchOf(message) == FollowUpBranch
    ensures r.FollowUp? ==> r.known == category
  {
    match ChatBranchOf(message)
    case GuideBranch => if category.Some? then OfferGuide(category.value) else AskWhatNeedsFixing
    case SubmitBranch => OfferSubmission
    case SolvedBranch => GladItIsSolved
    case FollowUpBranch => FollowUp(category)
  }

  // ---------------------------------------------------------------------
  // The form

  /** The four screens of the form. */
  datatype Step = Description | AiConversation | Details | Submitted

  /** The position of a step in the form's forward order. */
  function StepIndex(step: Step): nat {
    match step
    case Description => 0
    case AiConversation => 1
    case Details => 2
    case Submitted => 3
  }

  /** `handleBack`: one screen back from the conversation or the details; elsewhere it stays. */
  function PreviousStep(step: Step): (r: Step)
    ensures r == step <==> step == Description || step == Submitted
    ensures r != step ==> StepIndex(r) + 1 == StepIndex(step)
  {
    match step
    case AiConversation => Description
    case Details => AiConversation
    case _ => step
  }

  /** One entry of `conversationHistory`; an assistant entry records which reply it shows. */
  datatype Message = UserMessage(text: string) | AssistantMessage(reply: Reply)

  /**
   * The `useState` fields of the form. An image is represented by its file
   * name; timer callbacks run at once, so each handler leaves the state its
   * last callback produces.
   */
  class IssueFormState {
    var step: Step
    var description: string
    var name: string
    var email: string
    var phone: string
    var image: Option<string>
    var imagePreview: Option<string>
    var isEmergency: bool
    var emergencyType: string
    var emergencyCallConfirmed: bool
    var isAIAnalyzing: bool
    var conversationHistory: seq<Message>
    var detectedCategory: Option<string>
    var showTroubleshootingGuide: bool
    var issueSolved: bool

    /** Every field `handleStartOver` resets holds its initial value. */
    predicate IsReset()
      reads this
    {
      && step == Description && description == "" && detectedCategory == None
      && name == "" && email == "" && phone == ""
      && image == None && imagePreview == None
      && !isEmergency && emergencyType == "" && !emergencyCallConfirmed
      && conversationHistory == [] && !showTroubleshootingGuide && !issueSolved
    }

    /** The emergency effect has nothing left to do for the current description. */
    predicate EmergencySettled()
      reads this
    {
      description == "" || isEmergency == EmergencyKeyword(description).Some?
    }

    /** `disabled={!description || (isEmergency && !emergencyCallConfirmed)}`, negated. */
    predicate AnalyzeEnabled()
      reads this
      ensures AnalyzeEnabled() ==> |description| > 0
      ensures isEmergency && !emergencyCallConfirmed ==> !AnalyzeEnabled()
      ensures |description| > 0 && !isEmergency ==> AnalyzeEnabled()
    {
      description != "" && (!isEmergency || emergencyCallConfirmed)
    }

    constructor()
      ensures IsReset() && !isAIAnalyzing
    {
      step := Description;
      description := "";
      name := "";
      email := "";
      phone := "";
      image := None;
      imagePreview := None;
      isEmergency := false;
      emergencyType := "";
      emergencyCallConfirmed := false;
      isAIAnalyzing := false;
      conversationHistory := [];
      detectedCategory := None;
      showTroubleshootingGuide := false;
      issueSolved := false;
    }

    /** The branches of the emergency effect, given what the keyword search returned. */
    method ApplyFoundKeyword(found: Option<string>)
      modifies this`isEmergency, this`emergencyType, this`emergencyCallConfirmed
      ensures isEmergency == found.Some?
      ensures found.Some? && !old(isEmergency) ==>
        emergencyType == Capitalize(found.value) && emergencyCallConfirmed == old(emergencyCallConfirmed)
      ensures found.None? && old(isEmergency) ==>
        !emergencyCallConfirmed && emergencyType == old(emergencyType)
      ensures old(isEmergency) == found.Some? ==>
        emergencyType == old(emergencyType) && emergencyCallConfirmed == old(emergencyCallConfirmed)
    {
      if found.Some? && !isEmergency {
        isEmergency := true;
        emergencyType := Capitalize(found.value);
      } else if found.None? && isEmergency {
        isEmergency := false;
        emergencyCallConfirmed := false;
      }
    }

    /**
     * One run of the emergency effect. A newly found keyword raises the
     * emergency with its label; a vanished one clears the emergency and its
     * confirmation; an empty description, or a keyword found while the
     * emergency is already raised, changes nothing.
     */
    method EmergencyEffect()
      modifies this`isEmergency, this`emergencyType, this`emergencyCallConfirmed
      ensures EmergencySettled()
      ensures old(EmergencySettled()) ==> (
        && isEmergency == old(isEmergency)
        && emergencyType == old(emergencyType)
        && emergencyCallConfirmed == old(emergencyCallConfirmed))
      ensures description != "" && EmergencyKeyword(description).Some? && !old(isEmergency) ==>
        isEmergency && emergencyType == Capitalize(EmergencyKeyword(description).value)
        && emergencyCallConfirmed == old(emergencyCallConfirmed)
      ensures description != "" && EmergencyKeyword(description).None? && old(isEmergency) ==>
        !isEmergency && !emergencyCallConfirmed && emergencyType == old(emergencyType)
    {
      if description != "" {
        ApplyFoundKeyword(EmergencyKeyword(description));
      }
    }

    /**
     * Typing into the description box, followed by the effect it triggers.
     * The effect re-runs when it changes `isEmergency`, and that second run
     * changes nothing, so one run leaves the final state.
     */
    method SetDescription(text: string)
      modifies this`description, this`isEmergency, this`emergencyType, this`emergencyCallConfirmed
      ensures description == text
      ensures EmergencySettled()
      ensures text != "" && EmergencyKeyword(text).Some? && !old(isEmergency) ==>
        isEmergency && emergencyType == Capitalize(EmergencyKeyword(text).value)
        && emergencyCallConfirmed == old(emergencyCallConfirmed)
      ensures text != "" && EmergencyKeyword(text).None? ==>
        !isEmergency && (old(isEmergency) ==> !emergencyCallConfirmed) && emergencyType == old(emergencyType)
      ensures (text == "" || old(isEmergency) == EmergencyKeyword(text).Some?) ==>
        isEmergency == old(isEmergency) && emergencyType == old(emergencyType)
        && emergencyCallConfirmed == old(emergencyCallConfirmed)
      ensures EmergencyKeyword(text).Some? && !old(emergencyCallConfirmed) ==> !AnalyzeEnabled()
    {
      description := text;
      EmergencyEffect();
    }

    /** The emergency banner's confirmation button. */
    method HandleEmergencyCallConfirmed()
      modifies this`emergencyCallConfirmed
      ensures emergencyCallConfirmed
      ensures AnalyzeEnabled() <==> description != ""
    {
      emergencyCallConfirmed := true;
    }

    /** A message and the assistant's reply to it join the conversation. */
    method AddExchange(message: string, reply: Reply)
      modifies this`conversationHistory
      ensures conversationHistory == old(conversationHistory) + [UserMessage(message), AssistantMessage(reply)]
    {
      conversationHistory := conversationHistory + [UserMessage(message)];
      conversationHistory := conversationHistory + [AssistantMessage(reply)];
    }

    /** `if (category) setDetectedCategory(category)`. */
    method RecordCategory(category: Option<string>)
      modifies this`detectedCategory
      ensures detectedCategory == if category.Some? then category else old(detectedCategory)
    {
      if category.Some? {
        detectedCategory := category;
      }
    }

    /** The non-blank path of `handleAIAnalysis`, for the description `text`. */
    method Analyze(text: string)
      modifies this`isAIAnalyzing, this`conversationHistory, this`detectedCategory, this`step
      ensures conversationHistory == old(conversationHistory)
        + [UserMessage(text), AssistantMessage(AnalysisReply(isEmergency, emergencyType, CategoryOf(text)))]
      ensures detectedCategory == (if CategoryOf(text).Some? then CategoryOf(text) else old(detectedCategory))
      ensures !isAIAnalyzing && step == AiConversation
    {
      var category := DetectCategory(text);
      RecordAnalysis(text, category);
    }

    /** The state the analysis of `text` leaves, once its category is known. */
    method RecordAnalysis(text: string, category: Option<string>)
      modifies this`isAIAnalyzing, this`conversationHistory, this`detectedCategory, this`step
      ensures conversationHistory == old(conversationHistory)
        + [UserMessage(text), AssistantMessage(AnalysisReply(isEmergency, emergencyType, category))]
      ensures detectedCategory == (if category.Some? then category else old(detectedCategory))
      ensures !isAIAnalyzing && step == AiConversation
    {
      RecordCategory(category);
      AddExchange(text, AnalysisReply(isEmergency, emergencyType, category));
      isAIAnalyzing := false;
      step := AiConversation;
    }

    /**
     * `handleAIAnalysis`: a blank description changes nothing; otherwise
     * the description and the first reply join the conversation, a detected
     * category is recorded and the form moves to the conversation. The
     * reply sees the emergency state of the moment and the category just
     * detected. `isAIAnalyzing` is raised until the timer fires and lowers it.
     */
    method HandleAIAnalysis()
      modifies this`isAIAnalyzing, this`conversationHistory, this`detectedCategory, this`step
      ensures IsBlank(description) ==> unchanged(this)
      ensures !IsBlank(description) ==>
        && conversationHistory == old(conversationHistory)
             + [UserMessage(description), AssistantMessage(AnalysisReply(isEmergency, emergencyType, CategoryOf(description)))]
        && detectedCategory == (if CategoryOf(description).Some? then CategoryOf(description) else old(detectedCategory))
        && !isAIAnalyzing
        && step == AiConversation
    {
      if !IsBlank(description) {
        Analyze(description);
      }
    }

    /** The flags the reply to a message raises: the guide, or "solved". */
    method RecordOutcome(showGuide: bool, solved: bool)
      modifies this`showTroubleshootingGuide, this`issueSolved
      ensures showTroubleshootingGuide == (old(showTroubleshootingGuide) || showGuide)
      ensures issueSolved == (old(issueSolved) || solved)
    {
      if showGuide {
        showTroubleshootingGuide := true;
      }
      if solved {
        issueSolved := true;
      }
    }

    /**
     * `handleUserResponse`. A category is looked for in the message only
     * while none is known. The reply, and whether the guide is shown, use
     * the category known before the message: the timer callback sees the
     * value its closure captured, not the one just detected.
     */
    method HandleUserResponse(message: string)
      modifies this`conversationHistory, this`isAIAnalyzing, this`detectedCategory,
               this`showTroubleshootingGuide, this`issueSolved
      ensures conversationHistory == old(conversationHistory)
        + [UserMessage(message), AssistantMessage(ChatReply(message, old(detectedCategory)))]
      ensures detectedCategory == (if old(detectedCategory).None? then CategoryOf(message) else old(detectedCategory))
      ensures showTroubleshootingGuide
        == (old(showTroubleshootingGuide) || (ChatBranchOf(message) == GuideBranch && old(detectedCategory).Some?))
      ensures issueSolved == (old(issueSolved) || ChatBranchOf(message) == SolvedBranch)
      ensures !isAIAnalyzing
    {
      var known := detectedCategory;
      DetectCategoryIfUnknown(message);
      Respond(message, known);
    }

    /** `if (!detectedCategory)`: the message is searched for a category only while none is known. */
    method DetectCategoryIfUnknown(message: string)
      modifies this`detectedCategory
      ensures detectedCategory == (if old(detectedCategory).None? then CategoryOf(message) else old(detectedCategory))
    {
      if detectedCategory.None? {
        var category := DetectCategory(message);
        RecordCategory(category);
      }
    }

    /** The timer callback of `handleUserResponse`, with the category `known` its closure captured. */
    method Respond(message: string, known: Option<string>)
      modifies this`conversationHistory, this`isAIAnalyzing, this`showTroubleshootingGuide, this`issueSolved
      ensures conversationHistory == old(conversationHistory)
        + [UserMessage(message), AssistantMessage(ChatReply(message, known))]
      ensures showTroubleshootingGuide
        == (old(showTroubleshootingGuide) || (ChatBranchOf(message) == GuideBranch && known.Some?))
      ensures issueSolved == (old(issueSolved) || ChatBranchOf(message) == SolvedBranch)
      ensures !isAIAnalyzing
    {
      var branch := ChatBranchOf(message);
      RecordOutcome(branch == GuideBranch && known.Some?, branch == SolvedBranch);
      AddExchange(message, ChatReply(message, known));
      isAIAnalyzing := false;
    }

    /** `handleProceedToDetails`. */
    method HandleProceedToDetails()
      modifies this`step
      ensures step == Details
      ensures PreviousStep(step) == AiConversation
    {
      step := Details;
    }

    /** `handleBack`. */
    method HandleBack()
      modifies this`step
      ensures step == PreviousStep(old(step))
    {
      if step == AiConversation {
        step := Description;
      } else if step == Details {
        step := AiConversation;
      }
    }

    /** `handleSubmit`, once its timer has fired. */
    method HandleSubmit()
      modifies this`step
      ensures step == Submitted
    {
      step := Submitted;
    }

    /** `handleRemoveImage`. */
    method HandleRemoveImage()
      modifies this`image, this`imagePreview
      ensures image == None && imagePreview == None
    {
      image := None;
      imagePreview := None;
    }

    /** The "form data" half of `handleStartOver`. */
    method ResetFormData()
      modifies this`step, this`description, this`name, this`email, this`phone, this`image, this`imagePreview
      ensures step == Description && description == "" && name == "" && email == "" && phone == ""
      ensures image == None && imagePreview == None
    {
      step := Description;
      description := "";
      name := "";
      email := "";
      phone := "";
      image := None;
      imagePreview := None;
    }

    /** The "emergency" and "conversation" half of `handleStartOver`. */
    method ResetAssistance()
      modifies this`isEmergency, this`emergencyType, this`emergencyCallConfirmed,
               this`detectedCategory, this`conversationHistory, this`showTroubleshootingGuide, this`issueSolved
      ensures !isEmergency && emergencyType == "" && !emergencyCallConfirmed
      ensures detectedCategory == None && conversationHistory == [] && !showTroubleshootingGuide && !issueSolved
    {
      detectedCategory := None;
      isEmergency := false;
      emergencyType := "";
      emergencyCallConfirmed := false;
      conversationHistory := [];
      showTroubleshootingGuide := false;
      issueSolved := false;
    }

    /** `handleStartOver`: every field back to its initial value, except `isAIAnalyzing`, which it does not touch. */
    method HandleStartOver()
      modifies this
      ensures IsReset()
      ensures isAIAnalyzing == old(isAIAnalyzing)
      ensures !AnalyzeEnabled() && EmergencySettled()
    {
      ResetFormData();
      ResetAssistance();
    }
  }
}
