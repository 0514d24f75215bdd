/**
 * The chatbot front end (src/components/InsuranceChatbot.jsx): a fixed list of fourteen
 * questions asked one at a time. Each answer is converted to the wizard's representation where
 * the chatbot knows how, stored in the chatbot's own record, and after the last answer the
 * completed record is handed to the page.
 *
 * The source sequences its replies with timers; here each handler does at once what its timers
 * eventually do, in the same order.
 */
module Chatbot {
  import opened Wrappers
  import opened QuoteData
  import JsText
  import CarDetails
  import DriverDetails
  import CoverType
  import QuoteSummary

  /** How a question takes its answer: a select, free text, or a row of buttons. */
  datatype QuestionKind = DropdownQuestion | InputQuestion | OptionsQuestion

  /**
   * A list of options, by name: none (typed answers), the start button, one of the literal
   * lists below, or one of the two lists the source computes. The chat records the buttons and
   * the select it shows by these names; `Labels` gives their text.
   */
  datatype OptionList = NoOptions | StartButton | MakeList | BodyTypeList | YesNoList | PurposeList | GenderList | CoverList
                      | YearRange | AgeRange

  /** A question; its `id` is never read and is left out. */
  datatype Question = Question(kind: QuestionKind, field: Field, options: OptionList)

  /** `count` numbers as text, starting at `first` and going down by one. */
  function CountDown(first: nat, count: nat): (labels: seq<string>)
    requires count <= first + 1
    ensures |labels| == count
    ensures forall i :: 0 <= i < count ==> labels[i] == JsText.NatToString(first - i)
    decreases count
  {
    if count == 0 then [] else [JsText.NatToString(first)] + CountDown(if first == 0 then 0 else first - 1, count - 1)
  }

  /** `count` numbers as text, starting at `first` and going up by one. */
  function CountUp(first: nat, count: nat): (labels: seq<string>)
    ensures |labels| == count
    ensures forall i :: 0 <= i < count ==> labels[i] == JsText.NatToString(first + i)
    decreases count
  {
    if count == 0 then [] else [JsText.NatToString(first)] + CountUp(first + 1, count - 1)
  }

  /** The year select: 2025 down to 2000, as text. */
  function YearLabels(): (labels: seq<string>)
    ensures |labels| == 26
  {
    CountDown(2025, 26)
  }

  /** The age and licence-age selects: 16 up to 99, as text. */
  function AgeLabels(): (labels: seq<string>)
    ensures |labels| == 84
  {
    CountUp(16, 84)
  }

  const Makes: seq<string> :=
    ["Toyota", "Ford", "Holden", "Hyundai", "Mazda", "Nissan", "Volkswagen", "BMW",
     "Mercedes-Benz", "Audi", "Honda", "Subaru", "Other"]
  const BodyTypes: seq<string> := ["Hatchback", "Sedan", "Station Wagon", "SUV", "Coupe", "Convertible", "Ute"]
  const YesNo: seq<string> := ["Yes", "No"]
  const PrivateLabel: string := "Private use (Personal day-to-day)"
  const BusinessLabel: string := "Business use (Used for business purposes)"
  const Genders: seq<string> := ["Male", "Female", "Other", "Prefer not to say"]
  const CoverLabels: seq<string> := ["Comprehensive", "Third Party Property", "Third Party Fire & Theft", "Complete Care"]

  /** The labels of a list of options (`question.options || []`); the start button is one. */
  function Labels(list: OptionList): (options: seq<string>)
    ensures list == NoOptions <==> options == []
  {
    match list
    case NoOptions => []
    case StartButton => [StartOption]
    case MakeList => Makes
    case BodyTypeList => BodyTypes
    case YesNoList => YesNo
    case PurposeList => [PrivateLabel, BusinessLabel]
    case GenderList => Genders
    case CoverList => CoverLabels
    case YearRange => YearLabels()
    case AgeRange => AgeLabels()
  }

  /** The `questions` table, in the order they are asked; the texts are in `QuestionTexts`. */
  const Questions: seq<Question> := [
    Question(DropdownQuestion, CarYear, YearRange),
    Question(DropdownQuestion, CarMake, MakeList),
    Question(InputQuestion, CarModel, NoOptions),
    Question(OptionsQuestion, BodyType, BodyTypeList),
    Question(InputQuestion, Address, NoOptions),
    Question(OptionsQuestion, UnderFinance, YesNoList),
    Question(OptionsQuestion, MainPurpose, PurposeList),
    Question(OptionsQuestion, BusinessRegistered, YesNoList),
    Question(OptionsQuestion, Gender, GenderList),
    Question(DropdownQuestion, Age, AgeRange),
    Question(DropdownQuestion, LicenseAge, AgeRange),
    Question(OptionsQuestion, HasAccidents, YesNoList),
    Question(OptionsQuestion, HasAdditionalDrivers, YesNoList),
    Question(OptionsQuestion, CoverType, CoverList)
  ]

  /** What the bot posts for each question of `Questions`, at the same index. */
  const QuestionTexts: seq<string> := [
    "Hi! I'm here to help you get a car insurance quote. Let's start with your car details. What year was your car manufactured?",
    "Great! What's the make of your car?",
    "What's the model of your car?",
    "What body type is your car?",
    "Now let's talk about where you keep your car. What's the address where your car is usually kept overnight?",
    "Is this car currently under finance?",
    "What's the main purpose of the car?",
    "Is the car registered under a business name?",
    "Now for driver details. What's your gender?",
    "What's your age?",
    "At what age did you get your driver's license?",
    "Have you had any accidents or incidents in the past 5 years?",
    "Would you like to list any additional drivers?",
    "Finally, what type of cover would you like?"
  ]

  const LastQuestion: int := |Questions| - 1

  /** The fields in the order the questions ask them. */
  const AskedInOrder: seq<Field> :=
    [CarYear, CarMake, CarModel, BodyType, Address, UnderFinance, MainPurpose, BusinessRegistered,
     Gender, Age, LicenseAge, HasAccidents, HasAdditionalDrivers, CoverType]

  /** The fields some question stores. */
  function AskedFields(): (fields: set<Field>)
    ensures forall i :: 0 <= i < |Questions| ==> Questions[i].field in fields
  {
    set i | 0 <= i < |Questions| :: Questions[i].field
  }

  /** Fourteen questions, asking the fields above in order, each field once. */
  lemma QuestionTable()
    ensures |Questions| == 14 && LastQuestion == 13
    ensures forall i :: 0 <= i < |Questions| ==> Questions[i].field == AskedInOrder[i]
    ensures forall i, j :: 0 <= i < j < |Questions| ==> Questions[i].field != Questions[j].field
  {
  }

  /** The questions answered by typing (the model and the address) are exactly those without options. */
  lemma TypedQuestionsHaveNoOptions()
    ensures forall i :: 0 <= i < |Questions| ==> (Questions[i].kind == InputQuestion <==> Questions[i].options == NoOptions)
  {
  }

  /**
   * The chatbot never asks for a registration, the registration toggle, a cover start date or
   * a list of additional drivers, so its record never holds them.
   */
  lemma FieldsNeverAsked()
    ensures UseRegistration !in AskedFields() && Registration !in AskedFields()
    ensures CoverStartDate !in AskedFields() && AdditionalDrivers !in AskedFields()
  {
    QuestionTable();
  }

  /** The year select offers the same years, in the same order, as the wizard's car step. */
  lemma YearLabelsMatchWizard()
    ensures YearLabels() == CarDetails.CarYears()
  {
    assert forall i :: 0 <= i < 26 ==> YearLabels()[i] == CarDetails.CarYears()[i];
  }

  /** The age selects offer the wizard's age options, as text. */
  lemma AgeLabelsMatchWizard()
    ensures forall i :: 0 <= i < 84 ==> AgeLabels()[i] == JsText.NatToString(DriverDetails.AgeOptions()[i])
  {
  }

  /** The four fields answered "Yes"/"No" and stored as booleans. */
  predicate IsYesNoField(f: Field) {
    f == UnderFinance || f == BusinessRegistered || f == HasAccidents || f == HasAdditionalDrivers
  }

  /** `coverTypeMap[option] || option.toLowerCase()` */
  function CoverTypeValue(option: string): string {
    if option == "Comprehensive" then "comprehensive"
    else if option == "Third Party Property" then "third-party"
    else if option == "Third Party Fire & Theft" then "third-party-fire"
    else if option == "Complete Care" then "complete-care"
    else JsText.ToLower(option)
  }

  /** The value `handleOptionClick` stores for an option chosen while `f` is asked. */
  function OptionValue(f: Field, option: string): Value {
    if IsYesNoField(f) then Bool(option == "Yes")
    else if f == MainPurpose then Str(if JsText.HasSubstring(option, "Private") then "private" else "business")
    else if f == CoverType then Str(CoverTypeValue(option))
    else if f == Age || f == LicenseAge then NumberValue(JsText.ParseInt(option))
    else Str(option)
  }

  /** The value `handleInputSubmit` stores for typed text while `f` is asked. */
  function TypedValue(f: Field, text: string): Value {
    if f == Age || f == LicenseAge then NumberValue(JsText.ParseInt(text)) else Str(text)
  }

  /** On the four yes/no questions "Yes" stores true and any other option false. */
  lemma YesNoOptionsConvert(f: Field, option: string)
    requires IsYesNoField(f)
    ensures OptionValue(f, option) == Bool(option == "Yes")
    ensures OptionValue(f, "Yes") == Bool(true) && OptionValue(f, "No") == Bool(false)
  {
  }

  /**
   * The make, body-type and gender answers, and anything typed on a question other than the
   * two ages, are stored exactly as given.
   */
  lemma TextAnswersStoredAsGiven(f: Field, answer: string)
    requires f in {CarYear, CarMake, CarModel, BodyType, Address, Gender}
    ensures OptionValue(f, answer) == Str(answer)
    ensures TypedValue(f, answer) == Str(answer)
  {
  }

  /** The purpose question stores "private" for an option mentioning "Private", else "business". */
  lemma PurposeAnswerConverts(option: string)
    ensures OptionValue(MainPurpose, option) == Str(if JsText.HasSubstring(option, "Private") then "private" else "business")
  {
  }

  /** The private-use button mentions "Private". */
  lemma PrivateLabelMentionsPrivate(option: string)
    requires option == PrivateLabel
    ensures JsText.HasSubstring(option, "Private")
  {
    assert option[..7] == "Private";
  }

  /** The business-use button does not. */
  lemma BusinessLabelLacksPrivate(option: string)
    requires option == BusinessLabel
    ensures !JsText.HasSubstring(option, "Private")
  {
    assert 'P' !in option;
    JsText.MissingFirstCharNoSubstring(option, "Private");
  }

  /** The two purpose buttons store the wizard's two purpose values. */
  lemma PurposeOptionsConvert(option: string)
    requires option == PrivateLabel || option == BusinessLabel
    ensures OptionValue(MainPurpose, option) == Str(if option == PrivateLabel then "private" else "business")
  {
    PurposeAnswerConverts(option);
    if option == PrivateLabel {
      PrivateLabelMentionsPrivate(option);
    } else {
      BusinessLabelLacksPrivate(option);
    }
  }

  /** The ids `coverTypeMap` gives the four cover buttons, in the buttons' order. */
  const CoverIds: seq<string> := ["comprehensive", "third-party", "third-party-fire", "complete-care"]

  /** The cover question stores what `CoverTypeValue` makes of the option. */
  lemma CoverAnswerConverts(option: string)
    ensures OptionValue(CoverType, option) == Str(CoverTypeValue(option))
  {
  }

  /** The cover button at index `i` stores the id at the same index. */
  lemma CoverOptionConverts(i: int)
    requires 0 <= i < |CoverLabels|
    ensures OptionValue(CoverType, CoverLabels[i]) == Str(CoverIds[i])
  {
    if i == 0 {
    } else if i == 1 {
    } else if i == 2 {
    } else {
    }
  }

  /** The four cover buttons store the ids above, in order. */
  lemma CoverOptionsConvert()
    ensures forall i :: 0 <= i < |CoverLabels| ==> OptionValue(CoverType, CoverLabels[i]) == Str(CoverIds[i])
  {
    forall i | 0 <= i < |CoverLabels|
      ensures OptionValue(CoverType, CoverLabels[i]) == Str(CoverIds[i])
    {
      CoverOptionConverts(i);
    }
  }

  /** Those ids are the four ids of the wizard's cover step, each button a different one. */
  lemma CoverIdsAreTheWizardIds()
    ensures forall i :: 0 <= i < |CoverIds| ==> CoverIds[i] in CoverType.OptionIds
    ensures forall id :: id in CoverType.OptionIds ==> id in CoverIds
    ensures forall i, j :: 0 <= i < j < |CoverIds| ==> CoverIds[i] != CoverIds[j]
  {
  }

  /**
   * The summary shows each stored id under its button's label, with "Complete Care" gaining a
   * registered-trademark sign.
   */
  lemma CoverNamesMatchLabels()
    ensures forall i :: 0 <= i < 3 ==> QuoteSummary.CoverTypeName(CoverIds[i]) == CoverLabels[i]
    ensures QuoteSummary.CoverTypeName(CoverIds[3]) == QuoteSummary.CompleteCareName
  {
  }

  /** Any other option on the cover question is stored lower-cased. */
  lemma OtherCoverOptionLowerCased(option: string)
    requires option !in CoverLabels
    ensures OptionValue(CoverType, option) == Str(JsText.ToLower(option))
  {
    CoverAnswerConverts(option);
    assert CoverTypeValue(option) == JsText.ToLower(option);
  }

  /** On the two age questions an option or typed text is stored as `parseInt` reads it. */
  lemma NumberAnswersParsed(f: Field, answer: string)
    requires f == Age || f == LicenseAge
    ensures OptionValue(f, answer) == NumberValue(JsText.ParseInt(answer))
    ensures TypedValue(f, answer) == NumberValue(JsText.ParseInt(answer))
  {
  }

  /** Every age option stores a whole number from 16 to 99. */
  lemma AgeOptionsConvert(f: Field, i: int)
    requires f == Age || f == LicenseAge
    requires 0 <= i < 84
    ensures OptionValue(f, AgeLabels()[i]) == Num(i + 16)
  {
    var shown := AgeLabels()[i];
    assert shown == JsText.NatToString(i + 16);
    JsText.ParseIntOfNatToString(i + 16);
    NumberAnswersParsed(f, shown);
  }

  /**
   * The gender buttons store their capitalised labels, which are not the values the wizard's
   * gender select stores.
   */
  lemma GenderOptionsDifferFromWizard()
    ensures forall i :: 0 <= i < |Genders| ==>
      OptionValue(Gender, Genders[i]) == Str(Genders[i]) && Genders[i] !in DriverDetails.GenderValues
  {
  }

  /** Typed text on a yes/no question is stored as text, and any non-empty text is truthy. */
  lemma TypedYesNoIsText(f: Field, text: string)
    requires IsYesNoField(f) && text != ""
    ensures TypedValue(f, text) == Str(text) && Truthy(TypedValue(f, text))
  {
  }

  /** A line the bot posts: the greeting, the question at an index of `Questions`, or the closing. */
  datatype BotLine = GreetingLine | QuestionLine(index: int) | ClosingLine

  /**
   * A chat message: the bot's, recorded by the line it posts, or the user's, with its text.
   * Ids and timestamps are left out.
   */
  datatype Message = BotMessage(line: BotLine) | UserMessage(text: string)

  /** The select shown for a dropdown question. */
  datatype Dropdown = Dropdown(options: OptionList, field: Field)

  const Greeting: string :=
    "Hi! I'm your RACV car insurance assistant. I'll help you get a personalized quote in just a few minutes. Ready to get started?"
  const StartOption: string := "Yes, let's start!"
  const Closing: string := "Perfect! I have all the information I need. Let me generate your personalized quote..."

  /** The words of a bot line; an index outside the table has none. */
  function BotText(line: BotLine): (text: string)
    ensures line.QuestionLine? && 0 <= line.index < |QuestionTexts| ==> text == QuestionTexts[line.index]
    ensures line == GreetingLine ==> text == Greeting
    ensures line == ClosingLine ==> text == Closing
  {
    match line
    case GreetingLine => Greeting
    case QuestionLine(i) => if 0 <= i < |QuestionTexts| then QuestionTexts[i] else ""
    case ClosingLine => Closing
  }

  /** What a message shows. */
  function Content(m: Message): (text: string)
    ensures m.UserMessage? ==> text == m.text
  {
    match m
    case BotMessage(line) => BotText(line)
    case UserMessage(text) => text
  }

  /** The chatbot's state: its six `useState` hooks apart from the typing indicator. */
  datatype ChatState = ChatState(
    messages: seq<Message>,
    currentQuestion: int,
    quoteData: Record,
    inputValue: string,
    showOptions: OptionList,
    showDropdown: Option<Dropdown>)

  /** The question index is in range and the record only holds asked fields. */
  predicate ValidState(s: ChatState) {
    0 <= s.currentQuestion < |Questions| && s.quoteData.Keys <= AskedFields()
  }

  /** The greeting, then the start button. */
  const InitialChat: ChatState := ChatState([BotMessage(GreetingLine)], 0, map[], "", StartButton, None)

  /** What a handler leaves behind: the new state, and the record handed over on completion. */
  datatype Outcome = Outcome(state: ChatState, completed: Option<Record>)

  /** `askQuestion(i)`: post the question and offer its buttons or its select. */
  function Ask(s: ChatState, i: int): (t: ChatState)
    requires 0 <= i < |Questions|
    ensures t.currentQuestion == i && t.quoteData == s.quoteData && t.inputValue == s.inputValue
    ensures t.messages == s.messages + [BotMessage(QuestionLine(i))]
    ensures Questions[i].kind == OptionsQuestion ==>
      t.showOptions == Questions[i].options && t.showDropdown == s.showDropdown
    ensures Questions[i].kind == DropdownQuestion ==>
      t.showDropdown == Some(Dropdown(Questions[i].options, Questions[i].field)) && t.showOptions == s.showOptions
    ensures Questions[i].kind == InputQuestion ==> t.showOptions == s.showOptions && t.showDropdown == s.showDropdown
  {
    var q := Questions[i];
    var posted := s.(currentQuestion := i, messages := s.messages + [BotMessage(QuestionLine(i))]);
    match q.kind
    case OptionsQuestion => posted.(showOptions := q.options)
    case DropdownQuestion => posted.(showDropdown := Some(Dropdown(q.options, q.field)))
    case InputQuestion => posted
  }

  /**
   * Store `v` under the current question's field, then ask the next question or, after the
   * last one, post the closing message and hand over the record.
   */
  function StoreAndAdvance(s: ChatState, v: Value): Outcome
    requires 0 <= s.currentQuestion < |Questions|
  {
    var f := Questions[s.currentQuestion].field;
    var stored := s.(quoteData := s.quoteData[f := v]);
    if s.currentQuestion < LastQuestion then
      Outcome(Ask(stored, s.currentQuestion + 1), None)
    else
      Outcome(stored.(messages := stored.messages + [BotMessage(ClosingLine)]), Some(stored.quoteData))
  }

  /** The user's choice echoed in the chat, with the buttons and the select hidden. */
  function Echo(s: ChatState, option: string): (t: ChatState)
    ensures t.messages == s.messages + [UserMessage(option)] && t.showOptions == NoOptions && t.showDropdown == None
    ensures t.currentQuestion == s.currentQuestion && t.quoteData == s.quoteData && t.inputValue == s.inputValue
  {
    s.(messages := s.messages + [UserMessage(option)], showOptions := NoOptions, showDropdown := None)
  }

  /**
   * `handleOptionClick` (the select calls it too): echo the option and hide the buttons and
   * the select; the start button asks the first question; any other option stores its
   * converted value and moves on.
   */
  function OptionClick(s: ChatState, option: string): Outcome
    requires ValidState(s)
  {
    if option == StartOption then Outcome(Ask(Echo(s, option), 0), None)
    else StoreAndAdvance(Echo(s, option), OptionValue(Questions[s.currentQuestion].field, option))
  }

  /** The typed text echoed in the chat, with the input cleared. */
  function Submitted(s: ChatState): (t: ChatState)
    ensures t.messages == s.messages + [UserMessage(s.inputValue)] && t.inputValue == ""
    ensures t.currentQuestion == s.currentQuestion && t.quoteData == s.quoteData
    ensures t.showOptions == s.showOptions && t.showDropdown == s.showDropdown
  {
    s.(messages := s.messages + [UserMessage(s.inputValue)], inputValue := "")
  }

  /**
   * `handleInputSubmit`: blank input does nothing; otherwise echo the text, clear the input,
   * store the text (parsed for the two age fields) and move on.
   */
  function InputSubmit(s: ChatState): Outcome
    requires ValidState(s)
  {
    if JsText.IsBlank(s.inputValue) then Outcome(s, None)
    else
      StoreAndAdvance(Submitted(s), TypedValue(Questions[s.currentQuestion].field, s.inputValue))
  }

  /** Storing an answer writes only the current question's field and keeps the state valid. */
  lemma StoreAndAdvanceKeepsValid(s: ChatState, v: Value)
    requires ValidState(s)
    ensures ValidState(StoreAndAdvance(s, v).state)
    ensures var f := Questions[s.currentQuestion].field;
            StoreAndAdvance(s, v).state.quoteData == s.quoteData[f := v]
  {
    assert Questions[s.currentQuestion].field in AskedFields();
  }

  /**
   * Before the last question the next one is asked and nothing is handed over; after the
   * last, the closing message is posted and the record handed over includes the last answer.
   */
  lemma StoreAndAdvanceMovesOn(s: ChatState, v: Value)
    requires ValidState(s)
    ensures s.currentQuestion < LastQuestion ==>
      && StoreAndAdvance(s, v).state.currentQuestion == s.currentQuestion + 1
      && StoreAndAdvance(s, v).completed == None
      && StoreAndAdvance(s, v).state.messages == s.messages + [BotMessage(QuestionLine(s.currentQuestion + 1))]
    ensures s.currentQuestion == LastQuestion ==>
      && StoreAndAdvance(s, v).state.currentQuestion == LastQuestion
      && StoreAndAdvance(s, v).completed == Some(StoreAndAdvance(s, v).state.quoteData)
      && StoreAndAdvance(s, v).state.quoteData[CoverType] == v
      && StoreAndAdvance(s, v).state.messages == s.messages + [BotMessage(ClosingLine)]
  {
    var f := Questions[s.currentQuestion].field;
    var stored := s.(quoteData := s.quoteData[f := v]);
    if s.currentQuestion < LastQuestion {
      assert StoreAndAdvance(s, v) == Outcome(Ask(stored, s.currentQuestion + 1), None);
    } else {
      assert s.currentQuestion == 13 && f == CoverType;
    }
  }

  /** The chatbot starts valid and both handlers keep it valid. */
  lemma HandlersKeepValid(s: ChatState, option: string)
    requires ValidState(s)
    ensures ValidState(InitialChat)
    ensures ValidState(OptionClick(s, option).state)
    ensures ValidState(InputSubmit(s).state)
  {
    var echoed := Echo(s, option);
    StoreAndAdvanceKeepsValid(echoed, OptionValue(Questions[s.currentQuestion].field, option));
    if !JsText.IsBlank(s.inputValue) {
      var typed := Submitted(s);
      StoreAndAdvanceKeepsValid(typed, TypedValue(Questions[s.currentQuestion].field, s.inputValue));
    }
  }

  /** The start button asks the first question and stores nothing. */
  lemma StartAsksFirstQuestion(s: ChatState)
    requires ValidState(s)
    ensures var o := OptionClick(s, StartOption);
            && o.completed == None && o.state.quoteData == s.quoteData && o.state.currentQuestion == 0
            && o.state.messages == s.messages + [UserMessage(StartOption), BotMessage(QuestionLine(0))]
  {
  }

  /**
   * Any other option echoes itself, overwrites only the current question's field with its
   * converted value, and leaves the typed text alone.
   */
  lemma OptionAnswersCurrentQuestion(s: ChatState, option: string)
    requires ValidState(s) && option != StartOption
    ensures var f := Questions[s.currentQuestion].field;
            var o := OptionClick(s, option);
            && o.state.quoteData == s.quoteData[f := OptionValue(f, option)]
            && o.state.inputValue == s.inputValue
            && o.state.messages[..|s.messages| + 1] == s.messages + [UserMessage(option)]
            && (s.currentQuestion < LastQuestion ==> o.completed == None && o.state.currentQuestion == s.currentQuestion + 1)
  {
    var echoed := Echo(s, option);
    StoreAndAdvanceKeepsValid(echoed, OptionValue(Questions[s.currentQuestion].field, option));
    StoreAndAdvanceMovesOn(echoed, OptionValue(Questions[s.currentQuestion].field, option));
  }

  /** Typed text that is blank after trimming changes nothing. */
  lemma BlankInputIgnored(s: ChatState)
    requires ValidState(s) && JsText.IsBlank(s.inputValue)
    ensures InputSubmit(s) == Outcome(s, None)
  {
  }

  /**
   * Other typed text is echoed, overwrites only the current question's field (parsed for the
   * two age fields), and the input is cleared.
   */
  lemma TypedTextAnswersCurrentQuestion(s: ChatState)
    requires ValidState(s) && !JsText.IsBlank(s.inputValue)
    ensures var f := Questions[s.currentQuestion].field;
            var o := InputSubmit(s);
            && o.state.quoteData == s.quoteData[f := TypedValue(f, s.inputValue)]
            && o.state.inputValue == ""
            && o.state.messages[..|s.messages| + 1] == s.messages + [UserMessage(s.inputValue)]
  {
    var typed := Submitted(s);
    StoreAndAdvanceKeepsValid(typed, TypedValue(Questions[s.currentQuestion].field, s.inputValue));
    StoreAndAdvanceMovesOn(typed, TypedValue(Questions[s.currentQuestion].field, s.inputValue));
  }

  /** A record is handed over only when the last question is answered. */
  lemma CompletesOnlyAfterLastQuestion(s: ChatState, option: string)
    requires ValidState(s)
    ensures OptionClick(s, option).completed.Some? <==> option != StartOption && s.currentQuestion == LastQuestion
    ensures InputSubmit(s).completed.Some? <==> !JsText.IsBlank(s.inputValue) && s.currentQuestion == LastQuestion
    ensures OptionClick(s, option).completed.Some? ==>
      OptionClick(s, option).completed.value == s.quoteData[CoverType := OptionValue(CoverType, option)]
  {
    QuestionTable();
    var echoed := Echo(s, option);
    StoreAndAdvanceMovesOn(echoed, OptionValue(Questions[s.currentQuestion].field, option));
    if !JsText.IsBlank(s.inputValue) {
      var typed := Submitted(s);
      StoreAndAdvanceMovesOn(typed, TypedValue(Questions[s.currentQuestion].field, s.inputValue));
    }
  }

  /** The fields asked from question `k` on. */
  function FieldsFrom(k: nat): (fields: set<Field>)
    ensures forall i :: k <= i < |Questions| ==> Questions[i].field in fields
    ensures fields <= AskedFields()
    decreases |Questions| - k
  {
    if k >= |Questions| then {} else {Questions[k].field} + FieldsFrom(k + 1)
  }

  /** `FieldsFrom` adds one question's field per question, and nothing past the last. */
  lemma FieldsFromStep(k: nat)
    requires k < |Questions|
    ensures FieldsFrom(k) == {Questions[k].field} + FieldsFrom(k + 1)
    ensures k == LastQuestion ==> FieldsFrom(k + 1) == {}
  {
  }

  /** Keys that gained question `k`'s field and then every later field hold every field from `k` on. */
  lemma KeysFromStep(before: set<Field>, after: set<Field>, collected: set<Field>, k: nat)
    requires k < |Questions|
    requires after == before + {Questions[k].field} && collected == after + FieldsFrom(k + 1)
    ensures collected == before + FieldsFrom(k)
  {
    FieldsFromStep(k);
  }

  /**
   * Clicking the given options in turn, stopping once the record is handed over: what the user
   * does after the start button when every question is answered by a button or the select.
   */
  function AnswerAll(s: ChatState, answers: seq<string>): Outcome
    requires ValidState(s)
    decreases |answers|, 1
  {
    if answers == [] then Outcome(s, None)
    else
      HandlersKeepValid(s, answers[0]);
      AfterClick(OptionClick(s, answers[0]), answers[1..])
  }

  /** After a click: stop if the record was handed over, otherwise answer the rest. */
  function AfterClick(o: Outcome, rest: seq<string>): Outcome
    requires ValidState(o.state)
    decreases |rest| + 1, 0
  {
    if o.completed.Some? then o else AnswerAll(o.state, rest)
  }

  /** `AnswerAll` clicks the first answer, then goes on with the rest unless the record was handed over. */
  lemma AnswerAllStep(s: ChatState, answers: seq<string>)
    requires ValidState(s) && answers != []
    ensures var o := OptionClick(s, answers[0]);
            && ValidState(o.state)
            && AnswerAll(s, answers) == if o.completed.Some? then o else AnswerAll(o.state, answers[1..])
  {
    HandlersKeepValid(s, answers[0]);
  }

  /** One option answers the current question: its field joins the record, then the bot moves on or completes. */
  lemma OptionStep(s: ChatState, option: string)
    requires ValidState(s) && option != StartOption
    ensures var o := OptionClick(s, option);
            && ValidState(o.state)
            && o.state.quoteData.Keys == s.quoteData.Keys + {Questions[s.currentQuestion].field}
            && (s.currentQuestion < LastQuestion ==> o.completed == None && o.state.currentQuestion == s.currentQuestion + 1)
            && (s.currentQuestion == LastQuestion ==> o.completed == Some(o.state.quoteData))
  {
    HandlersKeepValid(s, option);
    OptionAnswersCurrentQuestion(s, option);
    StoreAndAdvanceMovesOn(Echo(s, option), OptionValue(Questions[s.currentQuestion].field, option));
  }

  /**
   * The first of the remaining answers moves the conversation to a state `t` whose record gained
   * the current question's field; the rest of the conversation goes on from `t`, or `t`'s record
   * is handed over after the last question.
   */
  lemma AnswerFirst(s: ChatState, answers: seq<string>) returns (t: ChatState)
    requires ValidState(s) && answers != [] && answers[0] != StartOption
    ensures ValidState(t)
    ensures t.quoteData.Keys == s.quoteData.Keys + {Questions[s.currentQuestion].field}
    ensures s.currentQuestion < LastQuestion ==>
      t.currentQuestion == s.currentQuestion + 1 && AnswerAll(s, answers) == AnswerAll(t, answers[1..])
    ensures s.currentQuestion == LastQuestion ==> AnswerAll(s, answers) == Outcome(t, Some(t.quoteData))
  {
    OptionStep(s, answers[0]);
    AnswerAllStep(s, answers);
    t := OptionClick(s, answers[0]).state;
  }

  /**
   * Answering the current question and every one after it hands over a record that holds the
   * answers given before, plus exactly the fields of the questions answered.
   */
  lemma {:induction false} AnsweringTheRestCompletes(s: ChatState, answers: seq<string>)
    requires ValidState(s) && |answers| == |Questions| - s.currentQuestion
    requires StartOption !in answers
    ensures AnswerAll(s, answers).completed.Some?
    ensures AnswerAll(s, answers).completed.value.Keys == s.quoteData.Keys + FieldsFrom(s.currentQuestion)
    decreases |answers|
  {
    var k := s.currentQuestion;
    var t := AnswerFirst(s, answers);
    if k < LastQuestion {
      var rest := answers[1..];
      assert StartOption !in rest;
      AnsweringTheRestCompletes(t, rest);
      KeysFromStep(s.quoteData.Keys, t.quoteData.Keys, AnswerAll(t, rest).completed.value.Keys, k);
    } else {
      FieldsFromStep(k);
    }
  }

  /** All the questions' fields are asked from the first question on. */
  lemma FieldsFromStart()
    ensures FieldsFrom(0) == AskedFields()
  {
    assert AskedFields() <= FieldsFrom(0);
  }

  /**
   * From the greeting, the start button followed by one option per question hands over a
   * record holding exactly the fourteen asked fields.
   */
  lemma ConversationCollectsEveryAskedField(answers: seq<string>)
    requires |answers| == |Questions|
    requires StartOption !in answers
    ensures var s := OptionClick(InitialChat, StartOption).state;
            ValidState(s) && AnswerAll(s, answers).completed.Some?
            && AnswerAll(s, answers).completed.value.Keys == AskedFields()
  {
    HandlersKeepValid(InitialChat, StartOption);
    StartAsksFirstQuestion(InitialChat);
    AnsweringTheRestCompletes(OptionClick(InitialChat, StartOption).state, answers);
    FieldsFromStart();
  }

  /** The conversation state of the chatbot component. */
  class ChatSession {
    var messages: seq<Message>
    var currentQuestion: int
    var quoteData: Record
    var inputValue: string
    var showOptions: OptionList
    var showDropdown: Option<Dropdown>

    function State(): ChatState
      reads this
    {
      ChatState(messages, currentQuestion, quoteData, inputValue, showOptions, showDropdown)
    }

    predicate Valid()
      reads this
    {
      ValidState(State())
    }

    /** The text input shows when neither buttons nor a select are shown. */
    predicate ShowsInput()
      reads this
    {
      showOptions == NoOptions && showDropdown.None?
    }

    constructor ()
      ensures State() == InitialChat && Valid()
    {
      messages := [BotMessage(GreetingLine)];
      currentQuestion := 0;
      quoteData := map[];
      inputValue := "";
      showOptions := StartButton;
      showDropdown := None;
      HandlersKeepValid(InitialChat, StartOption);
    }

    /** `askQuestion(i)` */
    method AskQuestion(i: int)
      requires 0 <= i < |Questions|
      modifies this
      ensures State() == Ask(old(State()), i)
    {
      ghost var s0 := State();
      var q := Questions[i];
      currentQuestion := i;
      messages := messages + [BotMessage(QuestionLine(i))];
      match q.kind {
        case OptionsQuestion =>
          showOptions := q.options;
        case DropdownQuestion =>
          showDropdown := Some(Dropdown(q.options, q.field));
        case InputQuestion =>
      }
      assert State() == Ask(s0, i);
    }

    /** Store an answer and ask the next question or complete. */
    method StoreAnswer(v: Value) returns (completed: Option<Record>)
      requires 0 <= currentQuestion < |Questions|
      modifies this
      ensures Outcome(State(), completed) == StoreAndAdvance(old(State()), v)
    {
      var f := Questions[currentQuestion].field;
      quoteData := quoteData[f := v];
      if currentQuestion < LastQuestion {
        AskQuestion(currentQuestion + 1);
        completed := None;
      } else {
        messages := messages + [BotMessage(ClosingLine)];
        completed := Some(quoteData);
      }
    }

    /** `handleOptionClick` */
    method HandleOptionClick(option: string) returns (completed: Option<Record>)
      requires Valid()
      modifies this
      ensures Valid()
      ensures Outcome(State(), completed) == OptionClick(old(State()), option)
    {
      ghost var s0 := State();
      messages := messages + [UserMessage(option)];
      showOptions := NoOptions;
      showDropdown := None;
      assert State() == Echo(s0, option);
      if option == StartOption {
        AskQuestion(0);
        return None;
      }
      var v := OptionValue(Questions[currentQuestion].field, option);
      StoreAndAdvanceKeepsValid(State(), v);
      completed := StoreAnswer(v);
    }

    /** The text input's `onChange`. */
    method TypeInput(text: string)
      modifies this
      ensures State() == old(State()).(inputValue := text)
    {
      inputValue := text;
    }

    /** `handleInputSubmit` */
    method HandleInputSubmit() returns (completed: Option<Record>)
      requires Valid()
      modifies this
      ensures Valid()
      ensures Outcome(State(), completed) == InputSubmit(old(State()))
    {
      ghost var s0 := State();
      var text := inputValue;
      if JsText.IsBlank(text) {
        return None;
      }
      messages := messages + [UserMessage(text)];
      inputValue := "";
      assert State() == Submitted(s0);
      var v := TypedValue(Questions[currentQuestion].field, text);
      StoreAndAdvanceKeepsValid(State(), v);
      completed := StoreAnswer(v);
    }
  }

  /** A record the chatbot completes never selects the registration view of the summary. */
  lemma CompletedRecordShowsManualVehicle(data: Record)
    requires data.Keys <= AskedFields()
    ensures !QuoteSummary.ShowsRegistration(data)
    ensures QuoteSummary.AdditionalDriverCount(data) == None
  {
    FieldsNeverAsked();
  }
}
