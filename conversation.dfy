/**
  The shuttle-request conversation: its states, the handler table that says
  which messages each state accepts, and the state each handler returns.
  The handlers only log the answers, so a state carries no answer.
*/
module Conversation {
  import opened Wrappers

  /** `GENDER, DESTINATION, LOCATION, BIO`, then the library's `END`. */
  datatype State = Gender | Destination | Location | Bio | End

  /** Position of a state along the conversation. */
  function Rank(s: State): nat
  {
    match s
    case Gender => 0
    case Destination => 1
    case Location => 2
    case Bio => 3
    case End => 4
  }

  /** The integer constant of an awaiting state, `range(4)` in declaration
      order. `END` is the library's constant and has no value here. */
  function Constant(s: State): (n: int)
    requires s != End
    ensures 0 <= n < 4
  {
    match s
    case Gender => 0
    case Destination => 1
    case Location => 2
    case Bio => 3
  }

  /** The constants are distinct and follow the conversation's order. */
  lemma ConstantsFollowOrder(s: State, t: State)
    requires s != End && t != End
    ensures Constant(s) < Constant(t) <==> Rank(s) < Rank(t)
    ensures Constant(s) == Constant(t) <==> s == t
  {
  }

  /** An inbound message, tagged by its shape. */
  datatype Event = Start | Text(body: string) | SharedLocation | Skip | Cancel

  /** The text a message carries: commands are texts too; a shared location
      has none. */
  function MessageText(e: Event): Option<string>
  {
    match e
    case Start => Some("/start")
    case Skip => Some("/skip")
    case Cancel => Some("/cancel")
    case Text(body) => Some(body)
    case SharedLocation => None
  }

  /** A text that begins with a slash is a bot command. */
  predicate IsCommand(text: string)
  {
    |text| > 0 && text[0] == '/'
  }

  /** The message filters the handler table uses. */
  datatype Filter =
    | Regex(alternatives: set<string>)  // `^(a|b|c)$`: exactly one of the alternatives
    | HasLocation                       // a shared location
    | Command(text: string)             // the command whose text is `text`, such as `/skip`
    | TextNotCommand                    // non-empty text that is not a command

  predicate Matches(f: Filter, e: Event)
    ensures f.Regex? && (forall a :: a in f.alternatives ==> !IsCommand(a)) ==>
              (Matches(f, e) <==> e.Text? && e.body in f.alternatives)
    ensures f == TextNotCommand ==> (Matches(f, e) <==> e.Text? && e.body != "" && !IsCommand(e.body))
    ensures e == SharedLocation ==> (Matches(f, e) <==> f == HasLocation)
  {
    match f
    case Regex(alternatives) => MessageText(e).Some? && MessageText(e).value in alternatives
    case HasLocation => e.SharedLocation?
    case Command(text) => MessageText(e) == Some(text)
    case TextNotCommand => MessageText(e).Some? && MessageText(e).value != "" && !IsCommand(MessageText(e).value)
  }

  /** The handler functions `start`, `gender`, `destination`, `location`,
      `skip_location`, `bio` and `cancel`. */
  datatype Callback = OnStart | OnGender | OnDestination | OnLocation | OnSkipLocation | OnBio | OnCancel

  /** The state constant each handler returns. */
  function NextState(cb: Callback): (s: State)
    ensures s == Gender <==> cb == OnStart
    ensures s == End <==> cb == OnBio || cb == OnCancel
    ensures cb != OnStart ==> Rank(s) >= 1
  {
    match cb
    case OnStart => Gender
    case OnGender => Destination
    case OnDestination => Location
    case OnLocation => Bio
    case OnSkipLocation => Bio
    case OnBio => End
    case OnCancel => End
  }

  datatype Handler = Handler(filter: Filter, callback: Callback)

  const Roles: set<string> := {"Student", "Non-Student", "Pilot"}
  const Destinations: set<string> := {"EIE", "CST", "Others"}

  /** `entry_points`. */
  const EntryPoints: seq<Handler> := [Handler(Command("/start"), OnStart)]

  /** `states`: the handlers of each awaiting state, in order. */
  function StateHandlers(s: State): (hs: seq<Handler>)
    ensures hs == [] <==> s == End
    ensures forall i :: 0 <= i < |hs| ==> Rank(s) < Rank(NextState(hs[i].callback))
    ensures forall i :: 0 <= i < |hs| ==> hs[i].callback != OnStart && hs[i].callback != OnCancel
    ensures forall i :: 0 <= i < |hs| ==> !Matches(hs[i].filter, Start) && !Matches(hs[i].filter, Cancel)
  {
    match s
    case Gender => [Handler(Regex(Roles), OnGender)]
    case Destination => [Handler(Regex(Destinations), OnDestination)]
    case Location => [Handler(HasLocation, OnLocation), Handler(Command("/skip"), OnSkipLocation)]
    case Bio => [Handler(TextNotCommand, OnBio)]
    case End => []
  }

  /** `fallbacks`. */
  const Fallbacks: seq<Handler> := [Handler(Command("/cancel"), OnCancel)]

  /** The callback of the first handler whose filter accepts the message. */
  function FirstMatch(hs: seq<Handler>, e: Event): (r: Option<Callback>)
    ensures r.None? <==> forall i :: 0 <= i < |hs| ==> !Matches(hs[i].filter, e)
    ensures r.Some? ==>
              exists i :: 0 <= i < |hs| && Matches(hs[i].filter, e) && hs[i].callback == r.value &&
                          forall j :: 0 <= j < i ==> !Matches(hs[j].filter, e)
    decreases |hs|
  {
    if hs == [] then None
    else if Matches(hs[0].filter, e) then Some(hs[0].callback)
    else FirstMatch(hs[1..], e)
  }

  /** The callback a message reaches in a running conversation: the state's
      own handlers first, then the fallbacks.  An ended conversation handles
      nothing. */
  function Dispatch(s: State, e: Event): (r: Option<Callback>)
    ensures r.Some? ==> Rank(s) < Rank(NextState(r.value))
    ensures s != End && IsCancel(e) ==> r == Some(OnCancel)
    ensures r.Some? && r.value != OnCancel ==>
              exists i :: 0 <= i < |StateHandlers(s)| && StateHandlers(s)[i].callback == r.value
  {
    if s == End then None
    else match FirstMatch(StateHandlers(s), e)
      case Some(cb) => Some(cb)
      case None => FirstMatch(Fallbacks, e)
  }

  /** One step of a running conversation; `None` when the message is not
      handled in state `s`, which then stays current. */
  function Step(s: State, e: Event): (r: Option<State>)
    ensures r.Some? ==> Rank(s) < Rank(r.value)
    ensures s != End && e == Cancel ==> r == Some(End)
    ensures s == End ==> r == None
  {
    match Dispatch(s, e)
    case None => None
    case Some(cb) => Some(NextState(cb))
  }

  /** Starting a conversation: only `/start` does, and it leads to GENDER. */
  function Begin(e: Event): (r: Option<State>)
    ensures r.Some? <==> e == Start || e == Text("/start")
    ensures r.Some? ==> r.value == Gender
  {
    match FirstMatch(EntryPoints, e)
    case None => None
    case Some(cb) => Some(NextState(cb))
  }

  predicate IsCancel(e: Event)
  {
    e == Cancel || e == Text("/cancel")
  }

  predicate IsSkip(e: Event)
  {
    e == Skip || e == Text("/skip")
  }

  /** The messages the three command filters accept. */
  lemma CommandFiltersAccept(e: Event)
    ensures Matches(Command("/start"), e) <==> e == Start || e == Text("/start")
    ensures Matches(Command("/skip"), e) <==> IsSkip(e)
    ensures Matches(Command("/cancel"), e) <==> IsCancel(e)
  {
  }

  /** `/cancel` ends the conversation from every awaiting state. */
  lemma CancelEndsEverywhere(s: State, e: Event)
    requires s != End && IsCancel(e)
    ensures Step(s, e) == Some(End)
  {
  }

  /** GENDER accepts exactly the three roles, and `/cancel`. */
  lemma GenderAccepts(e: Event)
    ensures Step(Gender, e) == Some(Destination) <==> e.Text? && e.body in Roles
    ensures Step(Gender, e) == Some(End) <==> IsCancel(e)
    ensures Step(Gender, e) == None <==> !(e.Text? && e.body in Roles) && !IsCancel(e)
  {
  }

  /** Other spellings are not handled. */
  lemma GenderRejectsOtherText()
    ensures Step(Gender, Text("student")) == None
    ensures Step(Gender, Text("Driver")) == None
    ensures Step(Gender, Text("Pilot ")) == None
  {
  }

  /** DESTINATION accepts exactly the three destinations, and `/cancel`. */
  lemma DestinationAccepts(e: Event)
    ensures Step(Destination, e) == Some(Location) <==> e.Text? && e.body in Destinations
    ensures Step(Destination, e) == Some(End) <==> IsCancel(e)
    ensures Step(Destination, e) == None <==> !(e.Text? && e.body in Destinations) && !IsCancel(e)
  {
  }

  /** LOCATION accepts a shared location or `/skip`, both leading to BIO, and
      `/cancel`. */
  lemma LocationAccepts(e: Event)
    ensures Step(Location, e) == Some(Bio) <==> e == SharedLocation || IsSkip(e)
    ensures Step(Location, e) == Some(End) <==> IsCancel(e)
    ensures Step(Location, e) == None <==> !(e == SharedLocation || IsSkip(e)) && !IsCancel(e)
  {
  }

  /** BIO accepts any non-empty text that is not a command, and `/cancel`;
      every other command is left unhandled. */
  lemma BioAccepts(e: Event)
    ensures Step(Bio, e) == Some(End) <==>
              (e.Text? && e.body != "" && !IsCommand(e.body)) || IsCancel(e)
    ensures Step(Bio, e) != Some(Gender) && Step(Bio, e) != Some(Destination) &&
            Step(Bio, e) != Some(Location) && Step(Bio, e) != Some(Bio)
    ensures MessageText(e).Some? && IsCommand(MessageText(e).value) && !IsCancel(e) ==> Step(Bio, e) == None
  {
  }

  /** The states a conversation passes through while it receives `es`;
      unhandled messages leave the current state as it is. */
  function Walk(s: State, es: seq<Event>): seq<State>
    decreases |es|
  {
    if es == [] then []
    else match Step(s, es[0])
      case None => Walk(s, es[1..])
      case Some(t) => [t] + Walk(t, es[1..])
  }

  /** Every accepted message moves strictly forward, so no state is visited
      twice and a conversation takes at most four steps. */
  lemma {:induction false} WalkMovesForward(s: State, es: seq<Event>)
    ensures forall i :: 0 <= i < |Walk(s, es)| ==> Rank(s) < Rank(Walk(s, es)[i])
    ensures forall i, j :: 0 <= i < j < |Walk(s, es)| ==> Rank(Walk(s, es)[i]) < Rank(Walk(s, es)[j])
    ensures |Walk(s, es)| <= 4 - Rank(s)
    decreases |es|
  {
    if es != [] {
      WalkMovesForward(s, es[1..]);
      match Step(s, es[0])
      case None =>
      case Some(t) =>
        WalkMovesForward(t, es[1..]);
    }
  }

  lemma NoStateRevisited(s: State, es: seq<Event>)
    ensures s !in Walk(s, es)
    ensures forall i, j :: 0 <= i < j < |Walk(s, es)| ==> Walk(s, es)[i] != Walk(s, es)[j]
  {
    WalkMovesForward(s, es);
  }

  /** A full request with the location skipped ends the conversation. */
  lemma SkippedLocationRequest()
    ensures Begin(Start) == Some(Gender)
    ensures Walk(Gender, [Text("Pilot"), Text("CST"), Skip, Text("thanks")]) == [Destination, Location, Bio, End]
  {
    var es := [Text("Pilot"), Text("CST"), Skip, Text("thanks")];
    GenderAccepts(es[0]);
    DestinationAccepts(es[1]);
    LocationAccepts(es[2]);
    BioAccepts(es[3]);
    assert Step(Gender, es[0]) == Some(Destination);
    assert Step(Destination, es[1]) == Some(Location);
    assert Step(Location, es[2]) == Some(Bio);
    assert Step(Bio, es[3]) == Some(End);
  }

  /** A wrong answer is ignored and the same question stays open. */
  lemma WrongAnswerIsIgnored()
    ensures Walk(Gender, [Text("Pilot"), Text("Pilot"), Text("EIE"), Text("hello")]) == [Destination, Location]
  {
    var es := [Text("Pilot"), Text("Pilot"), Text("EIE"), Text("hello")];
    GenderAccepts(es[0]);
    DestinationAccepts(es[1]);
    DestinationAccepts(es[2]);
    LocationAccepts(es[3]);
    assert Step(Gender, es[0]) == Some(Destination);
    assert Step(Destination, es[1]) == None;
    assert Step(Destination, es[2]) == Some(Location);
    assert Step(Location, es[3]) == None;
  }

  /** `/cancel` right after `/start` ends the conversation at once. */
  lemma CancelAtFirstQuestion()
    ensures Walk(Gender, [Cancel, Text("Pilot")]) == [End]
  {
  }
}
