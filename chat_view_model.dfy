/**
 * `ChatViewModel`: the transcript, the question the assistant is waiting on
 * (`lastAssistantMessageType`) and the store picked for a trip, as updated by
 * `processResponse` and by the handlers the chat screen's buttons call.
 *
 * What one typed turn says and where it leaves the pending question is the
 * pure table `Respond`; the class applies it.
 */
module ChatViewModel {
  import opened Wrappers
  import opened ChatModel
  import Text
  import C = Classifier
  import Helper
  import opened Stores

  // ---------------------------------------------------------------------------
  // What the assistant says
  // ---------------------------------------------------------------------------

  const MedicineListText := "Here are your today's medication list:"
  const MedicineReassuranceText := "Don't worry, I'll remind you to take them."
  const HomeCheckText := "Do you already have it at home?"
  const WhichStoreText := "Sure, which store do you want to go?"
  const SuggestPlansText := "Do you want me to check your calendar and suggest plans?"
  const SleepAlarmText := "Of course! Would you like me to set an alarm for a full 7 hours of sleep?"
  const CallContactText := "Would you like me to call your favorite contact?"
  const GreetingText := "Hey there! How can I assist you today?"
  const FallbackText := "Sorry, currently I can't assist you with that."
  const HaveItText := "That's great!, let me know if I could help in something else"
  const GoShoppingText := "Oh no issues, you can checkout from any of the stores below."
  const NoPlansText := "Sure thing! Let me know if I could help in something else"
  const UsualAlarmText := "Sure, will set the alarm for your usual time. Good night!"
  const NoAlarmText := "Sure, have a great sleep. Good night!"
  const ReminderOnText := "Great! I will remind for you."
  const ReminderOffText := "Sure! No problem."
  const ThanksText := "No problem!, I'm here to help."
  const PreferredStoreText := "Please select your preferred store."
  const ReminderConfirmedText := "Great! I will remind you."
  const CalendarClearText := "Great your calendar is clear for the day... Here are some suggestions:"

  const ShopEtaPrefix := "Sure, it will take "
  const ShopEtaSuffix := ", do you want me to remind you once it's done?"

  /** The reply to a picked store, with its travel time written out by `formatTime`. */
  function ShopEtaText(minutes: int): string
  {
    ShopEtaPrefix + Helper.FormatTime(minutes) + ShopEtaSuffix
  }

  /** The reply when the alarm is set seven hours ahead; `wakeTime` is the clock time that is. */
  function AlarmSetText(wakeTime: string): string
  {
    "Sure, will set the alarm for " + wakeTime + ". Good night!"
  }

  /** The store reply names the travel time: two different times never give the same reply. */
  lemma ShopEtaTextNamesTheTime(m: int, n: int)
    ensures ShopEtaText(m) == ShopEtaText(n) ==> m == n
  {
    var a, b := Helper.FormatTime(m), Helper.FormatTime(n);
    if ShopEtaText(m) == ShopEtaText(n) {
      var s := ShopEtaText(m);
      var lo := |ShopEtaPrefix|;
      assert |a| == |b|;
      assert s[lo..lo + |a|] == a;
      assert ShopEtaText(n)[lo..lo + |b|] == b;
      Helper.FormatTimeInjective(m, n);
    }
  }

  // ---------------------------------------------------------------------------
  // Notifications
  // ---------------------------------------------------------------------------

  /**
   * When a requested notification is due: a delay after the moment it is
   * asked for, or the clock components (hour and minute only) that the
   * request is built from, not the date those components resolve to.
   */
  datatype FireTime =
    | HoursFromNow(hours: int)
    | MinutesFromNow(minutes: int)
    | AtClock(hour: int, minute: int)

  /** A call to `scheduleNotification(title:subtitle:date:)`. */
  datatype Notification = Notification(title: string, body: string, fireAt: FireTime)

  const WakeUpInSevenHours := Notification("Good Morning!", "Wakey Wakey it's time to wake up!", HoursFromNow(7))
  const WakeUpAtSeven := Notification("Good Morning!", "Wakey Wakey it's time to wake up!", AtClock(7, 0))

  /** The reminder that the user got home, due once the trip to the store should be over. */
  function ArrivalCheck(store: Store): Notification
  {
    Notification("Hey there!", "Did you reach home safely?", MinutesFromNow(store.estimatedTime))
  }

  // ---------------------------------------------------------------------------
  // One typed turn
  // ---------------------------------------------------------------------------

  /** An assistant message before it is given an identifier. */
  datatype Reply = Reply(content: string, msgType: Option<MessageType>)

  /** The assistant's messages for a turn, in order, and the pending question afterwards. */
  datatype Outcome = Outcome(replies: seq<Reply>, pending: Option<MessageType>)

  /**
   * What `handleConfirmation` says: the follow-up to the pending question when
   * there is one for it, and nothing otherwise.
   */
  function ConfirmationReplies(pending: Option<MessageType>): (r: seq<Reply>)
    ensures |r| <= 1
    ensures |r| == 1 <==> pending == Some(GoingToShop) || pending == Some(NotificationOptions) || pending == Some(GoingOut)
  {
    match pending
    case Some(GoingToShop) => [Reply(PreferredStoreText, None)]
    case Some(NotificationOptions) => [Reply(ReminderConfirmedText, None)]
    case Some(GoingOut) => [Reply(CalendarClearText, Some(ShowOutingPlanOptions))]
    case _ => []
  }

  /** A question tagged with the flow it opens, which becomes the pending question. */
  function Ask(text: string, tag: MessageType): Outcome
  {
    Outcome([Reply(text, Some(tag))], Some(tag))
  }

  /** The effect of the branch `processResponse` takes, given the question pending before the turn. */
  function Respond(intent: C.Intent, pending: Option<MessageType>): Outcome
  {
    match intent
    case Confirmation => Outcome(ConfirmationReplies(pending), None)
    case Thanks => Outcome([Reply(ThanksText, None)], None)
    case MedicineQuery => Outcome([Reply(MedicineListText, Some(Medicine)), Reply(MedicineReassuranceText, None)], Some(Medicine))
    case HomeCheck => Ask(HomeCheckText, MessageType.HomeCheck)
    case Shop => Ask(WhichStoreText, GoingToShop)
    case Outing => Ask(SuggestPlansText, GoingOut)
    case Sleep => Ask(SleepAlarmText, GoingToBed)
    case Dial => Ask(CallContactText, DialNumber)
    case Greeting => Outcome([Reply(GreetingText, None)], pending)
    case Fallback => Outcome([Reply(FallbackText, Some(ShowInstructions))], pending)
  }

  /** A confirmation always clears the pending question, and answers only the three questions that have a follow-up. */
  lemma ConfirmationClearsPending(pending: Option<MessageType>)
    ensures Respond(C.Confirmation, pending).pending == None
    ensures |Respond(C.Confirmation, pending).replies| == 1
        <==> pending == Some(GoingToShop) || pending == Some(NotificationOptions) || pending == Some(GoingOut)
    ensures pending == None ==> Respond(C.Confirmation, pending).replies == []
  {
  }

  /** Where each branch leaves the pending question. */
  lemma PendingAfterTurn(intent: C.Intent, pending: Option<MessageType>)
    ensures intent == C.Confirmation || intent == C.Thanks ==> Respond(intent, pending).pending == None
    ensures intent == C.Greeting || intent == C.Fallback ==> Respond(intent, pending).pending == pending
    ensures intent == C.MedicineQuery ==> Respond(intent, pending).pending == Some(Medicine)
    ensures intent in {C.HomeCheck, C.Shop, C.Outing, C.Sleep, C.Dial}
        ==> Respond(intent, pending).pending == Respond(intent, pending).replies[0].msgType
            && Respond(intent, pending).pending.Some?
  {
  }

  /** Every branch says exactly one thing, except the medicine list (two) and a confirmation (at most one). */
  lemma RepliesPerTurn(intent: C.Intent, pending: Option<MessageType>)
    ensures intent == C.MedicineQuery ==> |Respond(intent, pending).replies| == 2
    ensures intent == C.Confirmation ==> |Respond(intent, pending).replies| <= 1
    ensures intent != C.MedicineQuery && intent != C.Confirmation ==> |Respond(intent, pending).replies| == 1
  {
  }

  /** The medicine branch: the list message tagged `.medicine`, then an untagged reassurance. */
  lemma MedicineTurn(pending: Option<MessageType>)
    ensures Respond(C.MedicineQuery, pending).replies[0].msgType == Some(Medicine)
    ensures Respond(C.MedicineQuery, pending).replies[1].msgType == None
  {
  }

  /** No typed turn makes `.notificationOptions` the pending question unless it already was. */
  lemma NeverPendsNotificationOptions(intent: C.Intent, pending: Option<MessageType>)
    ensures pending != Some(NotificationOptions) ==> Respond(intent, pending).pending != Some(NotificationOptions)
  {
  }

  /** The messages the replies become, with identifiers drawn from consecutive serials starting at `serial`. */
  function Stamp(serial: nat, replies: seq<Reply>): (ms: seq<ChatMessage>)
    ensures |ms| == |replies|
    ensures forall k :: 0 <= k < |replies| ==> ms[k] == Fresh(serial + k, replies[k].content, Assistant, replies[k].msgType)
    decreases |replies|
  {
    if replies == [] then []
    else [Fresh(serial, replies[0].content, Assistant, replies[0].msgType)] + Stamp(serial + 1, replies[1..])
  }

  /** Stamping two runs of replies one after the other is stamping them together. */
  lemma StampAppend(serial: nat, a: seq<Reply>, b: seq<Reply>)
    ensures Stamp(serial, a + b) == Stamp(serial, a) + Stamp(serial + |a|, b)
  {
    var l, r := Stamp(serial, a + b), Stamp(serial, a) + Stamp(serial + |a|, b);
    forall k | 0 <= k < |l| ensures l[k] == r[k] {
      if k < |a| {
        assert (a + b)[k] == a[k];
      } else {
        assert (a + b)[k] == b[k - |a|];
      }
    }
  }

  // ---------------------------------------------------------------------------
  // The view model
  // ---------------------------------------------------------------------------

  class ChatViewModel {
    var messages: seq<ChatMessage>
    var selectedStore: Option<Store>
    var lastAssistantMessageType: Option<MessageType>
    /** How many fresh message identifiers have been drawn. */
    var issued: nat
    /** The notifications asked for so far, oldest first. */
    var notifications: seq<Notification>

    /** The transcript's identifiers are the last `|messages|` serials drawn, in order. */
    ghost predicate IdsValid()
      reads this
    {
      |messages| <= issued
      && forall i :: 0 <= i < |messages| ==> messages[i].id == SerialId(issued - |messages| + i)
    }

    /** The state every operation keeps: consecutive identifiers, and `.notificationOptions` never pending. */
    ghost predicate Valid()
      reads this
    {
      IdsValid() && lastAssistantMessageType != Some(NotificationOptions)
    }

    constructor()
      ensures Valid()
      ensures messages == [] && selectedStore == None && lastAssistantMessageType == None && notifications == []
    {
      messages := [];
      selectedStore := None;
      lastAssistantMessageType := None;
      issued := 0;
      notifications := [];
    }

    /** No two messages in the transcript share an identifier. */
    lemma IdsUnique()
      requires IdsValid()
      ensures forall i, j :: 0 <= i < j < |messages| ==> messages[i].id != messages[j].id
    {
      forall i, j | 0 <= i < j < |messages| ensures messages[i].id != messages[j].id {
        Text.NatToStringInjective(issued - |messages| + i, issued - |messages| + j);
      }
    }

    /** `messages.append(ChatMessage(content:role:type:))`: a new message with a fresh identifier at the end. */
    method Append(content: string, role: SenderRole, msgType: Option<MessageType>)
      requires IdsValid()
      modifies this
      ensures IdsValid()
      ensures messages == old(messages) + [Fresh(old(issued), content, role, msgType)]
      ensures role == Assistant ==> messages == old(messages) + Stamp(old(issued), [Reply(content, msgType)])
      ensures issued == old(issued) + 1
      ensures selectedStore == old(selectedStore) && lastAssistantMessageType == old(lastAssistantMessageType)
      ensures notifications == old(notifications)
    {
      messages := messages + [Fresh(issued, content, role, msgType)];
      issued := issued + 1;
    }

    /**
     * One typed turn: the user's text is appended as typed, and the
     * lower-cased copy chooses the branch (`Classify`, the source's chain of
     * keyword tests) whose replies follow it.
     */
    method ProcessResponse(input: string)
      requires Valid()
      modifies this
      ensures Valid()
      ensures var o := Respond(C.Classify(Text.Lower(input)), old(lastAssistantMessageType));
        && messages == old(messages) + [Fresh(old(issued), input, User)] + Stamp(old(issued) + 1, o.replies)
        && lastAssistantMessageType == o.pending
        && issued == old(issued) + 1 + |o.replies|
      ensures selectedStore == old(selectedStore) && notifications == old(notifications)
    {
      Append(input, User, None);
      var lowerCasedInput := Text.Lower(input);
      Answer(C.Classify(lowerCasedInput));
    }

    /** The body of the branch `processResponse` takes for `intent`. */
    method Answer(intent: C.Intent)
      requires Valid()
      modifies this
      ensures Valid()
      ensures var o := Respond(intent, old(lastAssistantMessageType));
        && messages == old(messages) + Stamp(old(issued), o.replies)
        && lastAssistantMessageType == o.pending
        && issued == old(issued) + |o.replies|
      ensures selectedStore == old(selectedStore) && notifications == old(notifications)
    {
      match intent
      case Confirmation => HandleConfirmation();
      case Thanks => HandleThanks();
      case MedicineQuery => ShowMedicineList();
      case HomeCheck => AskAbout(HomeCheckText, MessageType.HomeCheck);
      case Shop => AskAbout(WhichStoreText, GoingToShop);
      case Outing => AskAbout(SuggestPlansText, GoingOut);
      case Sleep => AskAbout(SleepAlarmText, GoingToBed);
      case Dial => AskAbout(CallContactText, DialNumber);
      case Greeting => Say(Reply(GreetingText, None));
      case Fallback => Say(Reply(FallbackText, Some(ShowInstructions)));
    }

    /** A question that opens a flow: it becomes the pending question, then is appended under its tag. */
    method AskAbout(text: string, tag: MessageType)
      requires Valid() && tag != NotificationOptions
      modifies this
      ensures Valid()
      ensures messages == old(messages) + Stamp(old(issued), Ask(text, tag).replies)
      ensures lastAssistantMessageType == Ask(text, tag).pending
      ensures issued == old(issued) + 1
      ensures selectedStore == old(selectedStore) && notifications == old(notifications)
    {
      lastAssistantMessageType := Some(tag);
      Append(text, Assistant, Some(tag));
    }

    /** The medicine branch: the list, then the reassurance, with `.medicine` pending. */
    method ShowMedicineList()
      requires Valid()
      modifies this
      ensures Valid()
      ensures messages == old(messages) + Stamp(old(issued), Respond(C.MedicineQuery, old(lastAssistantMessageType)).replies)
      ensures lastAssistantMessageType == Some(Medicine)
      ensures issued == old(issued) + 2
      ensures selectedStore == old(selectedStore) && notifications == old(notifications)
    {
      ghost var replies := Respond(C.MedicineQuery, lastAssistantMessageType).replies;
      assert replies == [Reply(MedicineListText, Some(Medicine))] + [Reply(MedicineReassuranceText, None)];
      lastAssistantMessageType := Some(Medicine);
      Append(MedicineListText, Assistant, Some(Medicine));
      Append(MedicineReassuranceText, Assistant, None);
      StampAppend(old(issued), [Reply(MedicineListText, Some(Medicine))], [Reply(MedicineReassuranceText, None)]);
    }

    /** A reply that leaves the pending question as it was (the greeting and the fallback). */
    method Say(reply: Reply)
      requires Valid()
      modifies this
      ensures Valid()
      ensures messages == old(messages) + Stamp(old(issued), [reply])
      ensures lastAssistantMessageType == old(lastAssistantMessageType)
      ensures issued == old(issued) + 1
      ensures selectedStore == old(selectedStore) && notifications == old(notifications)
    {
      Append(reply.content, Assistant, reply.msgType);
    }

    /** The reply to the store the user picked; the store is kept for the arrival reminder. */
    method HandleGoingToShopResponse(store: Store)
      requires Valid()
      modifies this
      ensures Valid()
      ensures messages == old(messages) + [Fresh(old(issued), ShopEtaText(store.estimatedTime), Assistant, Some(NotificationOptions))]
      ensures selectedStore == Some(store)
      ensures lastAssistantMessageType == old(lastAssistantMessageType) && notifications == old(notifications)
      ensures issued == old(issued) + 1
    {
      var content := ShopEtaText(store.estimatedTime);
      selectedStore := Some(store);
      Append(content, Assistant, Some(NotificationOptions));
    }

    /** The answer to "Do you already have it at home?". */
    method HandlePantryCheck(isItemFound: bool)
      requires Valid()
      modifies this
      ensures Valid()
      ensures isItemFound ==> messages == old(messages) + [Fresh(old(issued), HaveItText, Assistant)]
                              && lastAssistantMessageType == None
      ensures !isItemFound ==> messages == old(messages) + [Fresh(old(issued), GoShoppingText, Assistant, Some(GoingToShop))]
                               && lastAssistantMessageType == Some(GoingToShop)
      ensures selectedStore == old(selectedStore) && notifications == old(notifications)
      ensures issued == old(issued) + 1
    {
      if isItemFound {
        Append(HaveItText, Assistant, None);
        lastAssistantMessageType := None;
      } else {
        Append(GoShoppingText, Assistant, Some(GoingToShop));
        lastAssistantMessageType := Some(GoingToShop);
      }
    }

    /** The answer to "Do you want me to check your calendar and suggest plans?". */
    method HandleOutingPlanSuggestionCheck(isPlanWanted: bool)
      requires Valid()
      modifies this
      ensures Valid()
      ensures isPlanWanted ==> messages == old(messages) + [Fresh(old(issued), CalendarClearText, Assistant, Some(ShowOutingPlanOptions))]
                               && lastAssistantMessageType == Some(ShowOutingPlanOptions)
      ensures !isPlanWanted ==> messages == old(messages) + [Fresh(old(issued), NoPlansText, Assistant)]
                                && lastAssistantMessageType == None
      ensures selectedStore == old(selectedStore) && notifications == old(notifications)
      ensures issued == old(issued) + 1
    {
      if isPlanWanted {
        CheckCalendarAndSuggestPlans();
      } else {
        Append(NoPlansText, Assistant, None);
        lastAssistantMessageType := None;
      }
    }

    /**
     * The answer to the alarm question. `wakeTime` is the clock time seven
     * hours from now, as the reply prints it. Every branch clears the
     * pending question.
     */
    method HandleSleep(isAlarmOn: bool, isUsualTime: bool, wakeTime: string)
      requires Valid()
      modifies this
      ensures Valid()
      ensures isAlarmOn && !isUsualTime ==> messages == old(messages) + [Fresh(old(issued), AlarmSetText(wakeTime), Assistant)]
                                            && notifications == old(notifications) + [WakeUpInSevenHours]
      ensures isAlarmOn && isUsualTime ==> messages == old(messages) + [Fresh(old(issued), UsualAlarmText, Assistant)]
                                           && notifications == old(notifications) + [WakeUpAtSeven]
      ensures !isAlarmOn ==> messages == old(messages) + [Fresh(old(issued), NoAlarmText, Assistant)]
                             && notifications == old(notifications)
      ensures lastAssistantMessageType == None && selectedStore == old(selectedStore)
      ensures issued == old(issued) + 1
    {
      if isAlarmOn && !isUsualTime {
        Append(AlarmSetText(wakeTime), Assistant, None);
        lastAssistantMessageType := None;
        notifications := notifications + [WakeUpInSevenHours];
      } else if isAlarmOn && isUsualTime {
        Append(UsualAlarmText, Assistant, None);
        notifications := notifications + [WakeUpAtSeven];
        lastAssistantMessageType := None;
      } else if !isAlarmOn {
        Append(NoAlarmText, Assistant, None);
        lastAssistantMessageType := None;
      }
    }

    /**
     * Calling a contact hands the system a `tel://` address with the number
     * after it, and changes nothing here: no message, no pending question.
     */
    method HandleCalling(number: string) returns (url: string)
      ensures |url| == |number| + 6 && url[..6] == "tel://" && url[6..] == number
    {
      url := "tel://" + number;
    }

    /**
     * The answer to "do you want me to remind you once it's done?". Yes with a
     * store picked asks for the arrival reminder and forgets the store; no
     * keeps the store.
     */
    method HandleNotificationOption(isSelected: bool)
      requires Valid()
      modifies this
      ensures Valid()
      ensures isSelected ==> messages == old(messages) + [Fresh(old(issued), ReminderOnText, Assistant)]
                             && selectedStore == None
                             && notifications == old(notifications)
                                  + (if old(selectedStore).Some? then [ArrivalCheck(old(selectedStore).value)] else [])
      ensures !isSelected ==> messages == old(messages) + [Fresh(old(issued), ReminderOffText, Assistant)]
                              && selectedStore == old(selectedStore) && notifications == old(notifications)
      ensures lastAssistantMessageType == old(lastAssistantMessageType)
      ensures issued == old(issued) + 1
    {
      if isSelected {
        Append(ReminderOnText, Assistant, None);
        if selectedStore.Some? {
          notifications := notifications + [ArrivalCheck(selectedStore.value)];
          selectedStore := None;
        }
      } else {
        Append(ReminderOffText, Assistant, None);
      }
    }

    /** A "yes" or "sure": the follow-up to the pending question, if it has one; the question is then cleared. */
    method HandleConfirmation()
      requires IdsValid()
      modifies this
      ensures IdsValid()
      ensures messages == old(messages) + Stamp(old(issued), ConfirmationReplies(old(lastAssistantMessageType)))
      ensures issued == old(issued) + |ConfirmationReplies(old(lastAssistantMessageType))|
      ensures lastAssistantMessageType == None
      ensures selectedStore == old(selectedStore) && notifications == old(notifications)
    {
      ghost var replies := ConfirmationReplies(lastAssistantMessageType);
      ghost var serial := issued;
      if lastAssistantMessageType.None? {
        assert Stamp(serial, replies) == [];
        return;
      }
      var lastType := lastAssistantMessageType.value;
      match lastType {
        case GoingToShop =>
          AskForPreferredStore();
          assert Stamp(serial, replies) == [Fresh(serial, PreferredStoreText, Assistant)];
        case NotificationOptions =>
          ConfirmReminderSetup();
          assert Stamp(serial, replies) == [Fresh(serial, ReminderConfirmedText, Assistant)];
        case GoingOut =>
          CheckCalendarAndSuggestPlans();
          assert Stamp(serial, replies) == [Fresh(serial, CalendarClearText, Assistant, Some(ShowOutingPlanOptions))];
        case _ =>
          assert Stamp(serial, replies) == [];
      }
      lastAssistantMessageType := None;
    }

    /** A thank-you or a "no": an acknowledgement, and no pending question. */
    method HandleThanks()
      requires IdsValid()
      modifies this
      ensures IdsValid()
      ensures messages == old(messages) + [Fresh(old(issued), ThanksText, Assistant)]
      ensures lastAssistantMessageType == None && selectedStore == old(selectedStore) && notifications == old(notifications)
      ensures issued == old(issued) + 1
    {
      Append(ThanksText, Assistant, None);
      lastAssistantMessageType := None;
    }

    method AskForPreferredStore()
      requires IdsValid()
      modifies this
      ensures IdsValid()
      ensures messages == old(messages) + [Fresh(old(issued), PreferredStoreText, Assistant)]
      ensures lastAssistantMessageType == old(lastAssistantMessageType)
      ensures selectedStore == old(selectedStore) && notifications == old(notifications)
      ensures issued == old(issued) + 1
    {
      Append(PreferredStoreText, Assistant, None);
    }

    method ConfirmReminderSetup()
      requires IdsValid()
      modifies this
      ensures IdsValid()
      ensures messages == old(messages) + [Fresh(old(issued), ReminderConfirmedText, Assistant)]
      ensures lastAssistantMessageType == old(lastAssistantMessageType)
      ensures selectedStore == old(selectedStore) && notifications == old(notifications)
      ensures issued == old(issued) + 1
    {
      Append(ReminderConfirmedText, Assistant, None);
    }

    /** Offers the outing plans and makes choosing one the pending question. */
    method CheckCalendarAndSuggestPlans()
      requires IdsValid()
      modifies this
      ensures IdsValid()
      ensures messages == old(messages) + [Fresh(old(issued), CalendarClearText, Assistant, Some(ShowOutingPlanOptions))]
      ensures lastAssistantMessageType == Some(ShowOutingPlanOptions)
      ensures selectedStore == old(selectedStore) && notifications == old(notifications)
      ensures issued == old(issued) + 1
    {
      Append(CalendarClearText, Assistant, Some(ShowOutingPlanOptions));
      lastAssistantMessageType := Some(ShowOutingPlanOptions);
    }
  }
}
