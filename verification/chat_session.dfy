/**
 * The chat session of the `Chat` component: the message log, the input box and
 * the in-flight flag, the send cycle with its character-by-character reveal,
 * and the history kept in a local key-value store.
 *
 * React state updates are modelled as sequential assignments to the fields of
 * `Chat`; the effect that saves the history after every change of `messages`
 * is the call `SaveEffect()` after each such assignment.
 */
module ChatSession {
  import opened Wrappers
  import opened Text

  datatype Role = User | Assistant

  datatype Message = Message(role: Role, content: string)

  /** What the `POST /api/chat` call produced. */
  datatype Outcome =
    | Success(reply: string)  // the response carried a `reply` string
    | MissingReply            // the response arrived without a `reply` field
    | Failure                 // the request was rejected (network or non-2xx status)

  /** The store key under which the history is kept. */
  const HistoryKey := "chatHistory"

  /** The assistant message shown when the backend cannot be reached. */
  const ErrorNotice := "\U{26A0}\U{FE0F} Error al conectar con la IA."

  /** The assistant messages a finished backend call leaves at the end of the log.
      Without a `reply` field the empty assistant message is already appended
      when reading the reply's length throws, so the error message follows it. */
  function Answer(outcome: Outcome): (answer: seq<Message>)
    ensures |answer| == (if outcome.MissingReply? then 2 else 1)
    ensures forall m :: m in answer ==> m.role == Assistant
    ensures answer[|answer| - 1].content == if outcome.Success? then outcome.reply else ErrorNotice
  {
    match outcome
    case Success(reply) => [Message(Assistant, reply)]
    case MissingReply => [Message(Assistant, ""), Message(Assistant, ErrorNotice)]
    case Failure => [Message(Assistant, ErrorNotice)]
  }

  /** The successive contents of the assistant message while a reply is revealed:
      the empty message, then each longer prefix, then the final write of the reply. */
  function Typing(reply: string): (frames: seq<string>)
    ensures |frames| == |reply| + 2
    ensures frames[0] == "" && frames[|frames| - 1] == reply
    ensures forall k :: 0 <= k < |reply| ==> frames[k + 1] == frames[k] + [reply[k]]
  {
    seq(|reply| + 1, i requires 0 <= i <= |reply| => reply[..i]) + [reply]
  }

  /** The contents the assistant message under construction goes through. */
  function Revealed(outcome: Outcome): seq<string> {
    match outcome
    case Success(reply) => Typing(reply)
    case MissingReply => [""]
    case Failure => []
  }

  /** The browser's local storage, holding message logs directly (no JSON text). */
  class Store {
    var entries: map<string, seq<Message>>

    constructor(initial: map<string, seq<Message>>)
      ensures entries == initial
    {
      entries := initial;
    }

    /** `getItem`: the stored value, or None when the key is absent. */
    method Get(key: string) returns (saved: Option<seq<Message>>)
      ensures saved.Some? <==> key in entries
      ensures saved.Some? ==> saved.value == entries[key]
    {
      saved := if key in entries then Some(entries[key]) else None;
    }

    /** `setItem`. */
    method Set(key: string, value: seq<Message>)
      modifies this
      ensures entries == old(entries)[key := value]
    {
      entries := entries[key := value];
    }

    /** `removeItem`. */
    method Remove(key: string)
      modifies this
      ensures entries == old(entries) - {key}
    {
      entries := entries - {key};
    }
  }

  class Chat {
    const store: Store
    var messages: seq<Message>
    var input: string
    var isTyping: bool

    /** The stored history is the current log; an empty log may also be absent from the store. */
    ghost predicate Persisted()
      reads this, store
    {
      if messages == [] then HistoryKey !in store.entries || store.entries[HistoryKey] == []
      else HistoryKey in store.entries && store.entries[HistoryKey] == messages
    }

    /** Mounting the component: empty state, then the restore effect, then the
        save effect, which writes back what was just read. */
    constructor(store: Store)
      modifies store
      ensures this.store == store
      ensures messages == (if HistoryKey in old(store.entries) then old(store.entries)[HistoryKey] else [])
      ensures input == "" && !isTyping
      ensures store.entries == old(store.entries)
      ensures Persisted()
    {
      this.store := store;
      messages := [];
      input := "";
      isTyping := false;
      new;
      Restore();
      SaveEffect();
    }

    /** The restore effect: load the stored history when one is present. */
    method Restore()
      modifies this`messages
      ensures messages == (if HistoryKey in store.entries then store.entries[HistoryKey] else old(messages))
      ensures old(Persisted()) || HistoryKey in store.entries ==> Persisted()
    {
      var saved := store.Get(HistoryKey);
      if saved.Some? {
        messages := saved.value;
      }
    }

    /** The save effect, run after every change of `messages`: write the log
        only when it is not empty. */
    method SaveEffect()
      modifies store
      ensures store.entries == if messages != [] then old(store.entries)[HistoryKey := messages] else old(store.entries)
      ensures old(Persisted()) || messages != [] ==> Persisted()
    {
      if |messages| > 0 {
        store.Set(HistoryKey, messages);
      }
    }

    /** Typing in the input box. */
    method SetInput(text: string)
      modifies this`input
      ensures input == text
      ensures old(Persisted()) ==> Persisted()
    {
      input := text;
    }

    /** `sendMessage` up to the backend call: ignored when the input is blank or
        a send is in flight; otherwise the user message goes into the log, the
        input is cleared and the in-flight flag is raised. */
    method BeginSend() returns (started: bool)
      requires Persisted()
      modifies this, store
      ensures Persisted()
      ensures started <==> !IsBlank(old(input)) && !old(isTyping)
      ensures !started ==> unchanged(this) && store.entries == old(store.entries)
      ensures started ==> messages == old(messages) + [Message(User, old(input))]
      ensures started ==> input == "" && isTyping
      ensures started ==> store.entries == old(store.entries)[HistoryKey := messages]
    {
      if IsBlank(input) || isTyping {
        return false;
      }
      var userMsg := Message(User, input);
      messages := messages + [userMsg];
      SaveEffect();
      input := "";
      isTyping := true;
      started := true;
    }

    /** The successful branch of `sendMessage`: append an empty assistant
        message, grow it through every prefix of the reply, then write the whole
        reply. `revealed` records the successive contents the log shows for it. */
    method RevealReply(reply: string) returns (ghost revealed: seq<string>)
      requires Persisted()
      modifies this`messages, store
      ensures messages == old(messages) + [Message(Assistant, reply)]
      ensures store.entries == old(store.entries)[HistoryKey := messages]
      ensures Persisted()
      ensures revealed == Typing(reply)
    {
      var typed := "";
      messages := messages + [Message(Assistant, typed)];
      SaveEffect();
      revealed := [messages[|messages| - 1].content];
      var i := 0;
      while i < |reply|
        invariant 0 <= i <= |reply|
        invariant typed == reply[..i]
        invariant messages == old(messages) + [Message(Assistant, typed)]
        invariant store.entries == old(store.entries)[HistoryKey := messages]
        invariant revealed == Typing(reply)[..i + 1]
      {
        typed := typed + [reply[i]];
        messages := messages[..|messages| - 1] + [Message(Assistant, typed)];
        SaveEffect();
        revealed := revealed + [messages[|messages| - 1].content];
        i := i + 1;
      }
      messages := messages[..|messages| - 1] + [Message(Assistant, reply)];
      SaveEffect();
      revealed := revealed + [messages[|messages| - 1].content];
    }

    /** `sendMessage` from the backend call on: reveal the reply one character at
        a time and then write it whole, or append the error message; in every
        case lower the in-flight flag. `revealed` records the successive
        contents the log shows for the assistant message being typed. */
    method AwaitReply(outcome: Outcome) returns (ghost revealed: seq<string>)
      requires Persisted() && isTyping
      modifies this, store
      ensures Persisted()
      ensures messages == old(messages) + Answer(outcome)
      ensures input == old(input) && !isTyping
      ensures store.entries == old(store.entries)[HistoryKey := messages]
      ensures revealed == Revealed(outcome)
    {
      revealed := [];
      match outcome {
        case Failure =>
          messages := messages + [Message(Assistant, ErrorNotice)];
          SaveEffect();
        case MissingReply =>
          messages := messages + [Message(Assistant, "")];
          SaveEffect();
          revealed := [messages[|messages| - 1].content];
          messages := messages + [Message(Assistant, ErrorNotice)];
          SaveEffect();
        case Success(reply) =>
          revealed := RevealReply(reply);
      }
      isTyping := false;
    }

    /** `sendMessage` run to completion with the backend's outcome given. */
    method SendMessage(outcome: Outcome) returns (ghost revealed: seq<string>)
      requires Persisted()
      modifies this, store
      ensures Persisted()
      ensures IsBlank(old(input)) || old(isTyping) ==>
        unchanged(this) && store.entries == old(store.entries) && revealed == []
      ensures !IsBlank(old(input)) && !old(isTyping) ==>
        messages == old(messages) + [Message(User, old(input))] + Answer(outcome)
        && input == "" && !isTyping
        && store.entries == old(store.entries)[HistoryKey := messages]
        && revealed == Revealed(outcome)
    {
      var started := BeginSend();
      revealed := [];
      if started {
        revealed := AwaitReply(outcome);
      }
    }

    /** The "Borrar historial" button: empty the log and remove the stored entry;
        the save effect that follows does not write the empty log back. */
    method Reset()
      modifies this`messages, store
      ensures messages == []
      ensures store.entries == old(store.entries) - {HistoryKey}
      ensures Persisted()
    {
      messages := [];
      store.Remove(HistoryKey);
      SaveEffect();
    }

    /** A page reload: a fresh component over the same store starts from the
        same conversation, with an empty input and no send in flight. */
    method Reload() returns (next: Chat)
      requires Persisted()
      modifies store
      ensures fresh(next) && next.store == store
      ensures next.messages == messages && next.input == "" && !next.isTyping
      ensures store.entries == old(store.entries)
    {
      next := new Chat(store);
    }
  }

  /** "Hello" is not blank, a run of spaces, newlines and tabs is. */
  lemma BlankInputs()
    ensures !IsBlank("Hello")
    ensures IsBlank(" \n\t")
  {
    assert "Hello"[0] == 'H';
  }

  /** A first message answered by the backend: the reply is revealed one
      character at a time and ends as the whole reply. */
  method HelloAnswered()
  {
    var store := new Store(map[]);
    var chat := new Chat(store);
    chat.SetInput("Hello");
    BlankInputs();
    var frames := chat.SendMessage(Success("Hi there"));
    assert chat.messages == [Message(User, "Hello"), Message(Assistant, "Hi there")];
    assert !chat.isTyping && chat.input == "";
    assert frames[1] == "H" && frames[2] == "Hi";
  }

  /** A first message whose request fails: one fixed error message follows it. */
  method HelloFailed()
  {
    var store := new Store(map[]);
    var chat := new Chat(store);
    chat.SetInput("Hello");
    BlankInputs();
    var frames := chat.SendMessage(Failure);
    assert chat.messages == [Message(User, "Hello"), Message(Assistant, ErrorNotice)];
    assert !chat.isTyping;
  }

  /** While a reply is awaited, a second send does nothing. */
  method SendWhileAwaiting(chat: Chat)
    requires chat.Persisted() && chat.isTyping
    modifies chat, chat.store
  {
    ghost var waiting := chat.messages;
    chat.SetInput("Again");
    var frames := chat.SendMessage(Success("ignored"));
    assert chat.messages == waiting && chat.isTyping && frames == [];
  }

  /** A whitespace-only input is not sent. */
  method BlankIsNotSent(chat: Chat)
    requires chat.Persisted()
    modifies chat, chat.store
  {
    chat.SetInput(" \n\t");
    BlankInputs();
    ghost var before := chat.messages;
    var frames := chat.SendMessage(Success("ignored"));
    assert chat.messages == before && frames == [];
  }

  /** A reload gives back the conversation; after a reset it starts empty. */
  method ReloadAndReset(chat: Chat)
    requires chat.Persisted()
    modifies chat, chat.store
  {
    var reloaded := chat.Reload();
    assert reloaded.messages == chat.messages;
    chat.Reset();
    var empty := chat.Reload();
    assert empty.messages == [];
  }
}
