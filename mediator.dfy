/** Chat room mediator: participants never talk to each other directly; they
    hand a message to the chat room, which looks the addressee up by name and
    delivers it. A delivery prints one line; here it is appended to the chat
    room's log. */
module MediatorPattern {

  /** The two concrete colleagues differ only in the prefix of their line. */
  datatype Kind = Beatle | NonBeatle

  function Prefix(k: Kind): string {
    match k
    case Beatle => "To a Beatle: "
    case NonBeatle => "To a non-Beatle: "
  }

  class Participant {
    const name: string
    const kind: Kind
    /** Left unset by the C++ constructor; null until registration here. */
    var chatroom: Chatroom?

    constructor (name: string, kind: Kind)
      ensures this.name == name && this.kind == kind && chatroom == null
    {
      this.name := name;
      this.kind := kind;
      chatroom := null;
    }

    method SetChatroom(value: Chatroom?)
      modifies this
      ensures chatroom == value
    {
      chatroom := value;
    }

    /** Sends under the participant's own name through its chat room. */
    method Send(to: string, message: string)
      requires chatroom != null
      modifies chatroom
      ensures chatroom.State() == SendOf(old(chatroom.State()), name, to, message)
    {
      chatroom.Send(name, to, message);
    }
  }

  /** The line printed when `p` receives `message` from `from`. */
  function Line(p: Participant, from: string, message: string): (r: string)
    ensures |r| > |p.name| + |from| + |message|
    ensures Prefix(p.kind) + from <= r
    ensures r[|r| - |message|..] == message
  {
    Prefix(p.kind) + from + " to " + p.name + " : " + message
  }

  /** The name table (`operator[]` leaves null entries for names looked up
      but never registered) and the lines printed so far. */
  datatype Room = Room(participants: map<string, Participant?>, log: seq<string>)

  /** Every non-null entry sits under its participant's own name. */
  ghost predicate Named(r: Room) {
    forall n :: n in r.participants && r.participants[n] != null ==> r.participants[n].name == n
  }

  /** The names a message can be delivered to. */
  function Registered(r: Room): set<string> {
    set n | n in r.participants && r.participants[n] != null
  }

  /** The participant a name resolves to, null when there is none. */
  function Lookup(r: Room, name: string): Participant? {
    if name in r.participants then r.participants[name] else null
  }

  function RegisterOf(r: Room, p: Participant): Room {
    if Lookup(r, p.name) == null then Room(r.participants[p.name := p], r.log) else r
  }

  function SendOf(r: Room, from: string, to: string, message: string): Room {
    var pto := Lookup(r, to);
    var table := r.participants[to := pto];
    if pto != null then Room(table, r.log + [Line(pto, from, message)]) else Room(table, r.log)
  }

  class Chatroom {
    var participants: map<string, Participant?>
    var log: seq<string>

    function State(): Room
      reads this
    {
      Room(participants, log)
    }

    constructor ()
      ensures State() == Room(map[], [])
    {
      participants, log := map[], [];
    }

    /** Keeps the first participant registered under a name and points the
        participant at this room either way. */
    method Register(participant: Participant)
      modifies this, participant
      ensures State() == RegisterOf(old(State()), participant)
      ensures participant.chatroom == this
    {
      if participant.name !in participants {
        participants := participants[participant.name := null];
      }
      if participants[participant.name] == null {
        participants := participants[participant.name := participant];
      }
      participant.SetChatroom(this);
    }

    method Send(from: string, to: string, message: string)
      modifies this
      ensures State() == SendOf(old(State()), from, to, message)
    {
      if to !in participants {
        participants := participants[to := null];
      }
      var pto := participants[to];
      if pto != null {
        log := log + [Line(pto, from, message)];
      }
    }
  }

  /** Registration files the participant under its own name unless the name
      is taken, in which case the earlier participant stays. */
  lemma FirstRegistrationWins(r: Room, p: Participant)
    requires Named(r)
    ensures Named(RegisterOf(r, p))
    ensures Registered(RegisterOf(r, p)) == Registered(r) + {p.name}
    ensures Lookup(RegisterOf(r, p), p.name) == (if p.name in Registered(r) then Lookup(r, p.name) else p)
    ensures forall n :: n != p.name ==> Lookup(RegisterOf(r, p), n) == Lookup(r, n)
    ensures RegisterOf(r, p).log == r.log
  {
  }

  /** A message reaches exactly the participant registered under the
      addressee's name, and nobody when there is none; sending never changes
      who is registered. */
  lemma Delivery(r: Room, from: string, to: string, message: string)
    requires Named(r)
    ensures var s := SendOf(r, from, to, message);
            && Named(s)
            && Registered(s) == Registered(r)
            && (forall n :: Lookup(s, n) == Lookup(r, n))
            && (to in Registered(r) <==> |s.log| == |r.log| + 1)
            && (to in Registered(r) ==> s.log == r.log + [Line(r.participants[to], from, message)] && r.participants[to].name == to)
            && (to !in Registered(r) ==> s.log == r.log)
  {
  }

  /** A message to a name nobody holds leaves a null entry under that name;
      registering someone under the name afterwards replaces it. */
  lemma NullEntryReplaced(r: Room, from: string, message: string, p: Participant)
    requires p.name !in Registered(r)
    ensures var s := SendOf(r, from, p.name, message);
            && p.name in s.participants && s.participants[p.name] == null
            && Lookup(RegisterOf(s, p), p.name) == p
  {
  }

  /** A message for the chat room: sender, addressee, text. */
  datatype Message = Message(from: string, to: string, text: string)

  function SendAll(r: Room, ms: seq<Message>): Room
    decreases |ms|
  {
    if |ms| == 0 then r else SendAll(SendOf(r, ms[0].from, ms[0].to, ms[0].text), ms[1..])
  }

  /** How many of the messages are addressed to a registered name. */
  function Deliverable(names: set<string>, ms: seq<Message>): (n: nat)
    ensures n <= |ms|
    decreases |ms|
  {
    if |ms| == 0 then 0 else (if ms[0].to in names then 1 else 0) + Deliverable(names, ms[1..])
  }

  /** Over any run of messages, the registered names stay as they were, the
      log only grows, and it grows by one line per message addressed to a
      registered name. */
  lemma {:induction false} Conversation(r: Room, ms: seq<Message>)
    requires Named(r)
    ensures var s := SendAll(r, ms);
            && Named(s)
            && Registered(s) == Registered(r)
            && |s.log| == |r.log| + Deliverable(Registered(r), ms)
            && s.log[..|r.log|] == r.log
    decreases |ms|
  {
    if |ms| > 0 {
      var t := SendOf(r, ms[0].from, ms[0].to, ms[0].text);
      Delivery(r, ms[0].from, ms[0].to, ms[0].text);
      Conversation(t, ms[1..]);
      var s := SendAll(t, ms[1..]);
      assert s.log[..|t.log|] == t.log;
      assert t.log[..|r.log|] == r.log;
      assert s.log[..|r.log|] == s.log[..|t.log|][..|r.log|];
    }
  }

  /** Five participants with distinct names, registered in turn into an
      empty room, can each be looked up under their own name. */
  lemma Registrations(a: Participant, b: Participant, c: Participant, d: Participant, e: Participant)
    requires a.name != b.name && a.name != c.name && a.name != d.name && a.name != e.name
    requires b.name != c.name && b.name != d.name && b.name != e.name
    requires c.name != d.name && c.name != e.name && d.name != e.name
    ensures var r := RegisterOf(RegisterOf(RegisterOf(RegisterOf(RegisterOf(Room(map[], []), a), b), c), d), e);
            && Lookup(r, a.name) == a && Lookup(r, b.name) == b && Lookup(r, c.name) == c
            && Lookup(r, d.name) == d && Lookup(r, e.name) == e && r.log == []
  {
  }

  /** A message to a participant the room already resolves prints that
      participant's line and leaves every lookup as it was. */
  lemma Deliver(r: Room, p: Participant, from: string, message: string)
    requires Lookup(r, p.name) == p
    ensures var s := SendOf(r, from, p.name, message);
            && s.log == r.log + [Line(p, from, message)]
            && forall n :: Lookup(s, n) == Lookup(r, n)
  {
  }

  /** main's conversation in a room where all five resolve: Yoko to John,
      Paul to Ringo, Ringo to George, Paul to John, John to Yoko. */
  lemma Conversation5(r: Room, george: Participant, paul: Participant, ringo: Participant, john: Participant, yoko: Participant,
                      m1: string, m2: string, m3: string, m4: string, m5: string)
    requires Lookup(r, george.name) == george && Lookup(r, paul.name) == paul && Lookup(r, ringo.name) == ringo
    requires Lookup(r, john.name) == john && Lookup(r, yoko.name) == yoko && r.log == []
    ensures var s1 := SendOf(r, yoko.name, john.name, m1);
            var s2 := SendOf(s1, paul.name, ringo.name, m2);
            var s3 := SendOf(s2, ringo.name, george.name, m3);
            var s4 := SendOf(s3, paul.name, john.name, m4);
            var s5 := SendOf(s4, john.name, yoko.name, m5);
            s5.log == [ Line(john, yoko.name, m1), Line(ringo, paul.name, m2), Line(george, ringo.name, m3),
                        Line(john, paul.name, m4), Line(yoko, john.name, m5) ]
  {
    var s1 := SendOf(r, yoko.name, john.name, m1);
    Deliver(r, john, yoko.name, m1);
    var s2 := SendOf(s1, paul.name, ringo.name, m2);
    Deliver(s1, ringo, paul.name, m2);
    var s3 := SendOf(s2, ringo.name, george.name, m3);
    Deliver(s2, george, ringo.name, m3);
    var s4 := SendOf(s3, paul.name, john.name, m4);
    Deliver(s3, john, paul.name, m4);
    Deliver(s4, yoko, john.name, m5);
  }

  /** The room of main after its five registrations. */
  function MainRoom(george: Participant, paul: Participant, ringo: Participant, john: Participant, yoko: Participant): Room {
    RegisterOf(RegisterOf(RegisterOf(RegisterOf(RegisterOf(Room(map[], []), george), paul), ringo), john), yoko)
  }

  /** The first half of main: the room and the participants, George, Paul
      and Ringo as non-Beatles, John and Yoko as Beatles, all registered. */
  method MainSetup() returns (room: Chatroom, george: Participant, paul: Participant, ringo: Participant, john: Participant, yoko: Participant)
    ensures george.name == "George" && paul.name == "Paul" && ringo.name == "Ringo" && john.name == "John" && yoko.name == "Yoko"
    ensures george.kind == NonBeatle && paul.kind == NonBeatle && ringo.kind == NonBeatle && john.kind == Beatle && yoko.kind == Beatle
    ensures george.chatroom == paul.chatroom == ringo.chatroom == john.chatroom == yoko.chatroom == room
    ensures room.State() == MainRoom(george, paul, ringo, john, yoko) && fresh(room)
  {
    room := new Chatroom();
    george := new Participant("George", NonBeatle);
    paul := new Participant("Paul", NonBeatle);
    ringo := new Participant("Ringo", NonBeatle);
    john := new Participant("John", Beatle);
    yoko := new Participant("Yoko", Beatle);
    RegisterFive(room, george, paul, ringo, john, yoko);
  }

  /** Registers five participants in turn. */
  method RegisterFive(room: Chatroom, a: Participant, b: Participant, c: Participant, d: Participant, e: Participant)
    modifies room, a, b, c, d, e
    ensures room.State() ==
            RegisterOf(RegisterOf(RegisterOf(RegisterOf(RegisterOf(old(room.State()), a), b), c), d), e)
    ensures a.chatroom == b.chatroom == c.chatroom == d.chatroom == e.chatroom == room
  {
    room.Register(a);
    room.Register(b);
    room.Register(c);
    room.Register(d);
    room.Register(e);
  }

  /** The first line main prints, spelled out: Yoko's message as John
      receives it. */
  lemma FirstLine(john: Participant)
    requires john.name == "John" && john.kind == Beatle
    ensures Line(john, "Yoko", "Hi John") == "To a Beatle: Yoko to John : Hi John"
  {
  }

  /** The second half of main, for any room that resolves all five names:
      the five messages, each printed by its addressee. */
  method MainConversation(room: Chatroom, george: Participant, paul: Participant, ringo: Participant, john: Participant, yoko: Participant,
                          m1: string, m2: string, m3: string, m4: string, m5: string)
    requires george.chatroom == paul.chatroom == ringo.chatroom == john.chatroom == yoko.chatroom == room
    requires Lookup(room.State(), george.name) == george && Lookup(room.State(), paul.name) == paul
    requires Lookup(room.State(), ringo.name) == ringo && Lookup(room.State(), john.name) == john
    requires Lookup(room.State(), yoko.name) == yoko && room.log == []
    modifies room
    ensures room.log == [ Line(john, yoko.name, m1), Line(ringo, paul.name, m2), Line(george, ringo.name, m3),
                          Line(john, paul.name, m4), Line(yoko, john.name, m5) ]
  {
    ghost var r := room.State();
    yoko.Send(john.name, m1);
    paul.Send(ringo.name, m2);
    ringo.Send(george.name, m3);
    paul.Send(john.name, m4);
    john.Send(yoko.name, m5);
    Conversation5(r, george, paul, ringo, john, yoko, m1, m2, m3, m4, m5);
  }

  /** main: the five registrations, then the five messages; every one of
      them reaches its addressee. */
  method MainSequence() returns (room: Chatroom, george: Participant, paul: Participant, ringo: Participant, john: Participant, yoko: Participant)
    ensures george.name == "George" && paul.name == "Paul" && ringo.name == "Ringo" && john.name == "John" && yoko.name == "Yoko"
    ensures george.kind == NonBeatle && paul.kind == NonBeatle && ringo.kind == NonBeatle && john.kind == Beatle && yoko.kind == Beatle
    ensures room.log ==
      [ Line(john, "Yoko", "Hi John"), Line(ringo, "Paul", "All you need is love"), Line(george, "Ringo", "My sweet Lord"),
        Line(john, "Paul", "Can't buy me love"), Line(yoko, "John", "My sweet love") ]
  {
    room, george, paul, ringo, john, yoko := MainSetup();
    Registrations(george, paul, ringo, john, yoko);
    MainConversation(room, george, paul, ringo, john, yoko,
                     "Hi John", "All you need is love", "My sweet Lord", "Can't buy me love", "My sweet love");
  }
}
