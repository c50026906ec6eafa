/** The values shared by the backend (backend/src/types.ts) and by the
    frontend's copy of the same declarations (frontend/src/types.ts),
    together with two sequence helpers every other module uses. */
module Types {

  datatype Option<+T> = None | Some(value: T)

  /** The `ModelId` union: the seven model identifiers the system knows. */
  datatype ModelId =
    | Gpt51
    | Gpt4
    | Gpt35Turbo
    | ClaudeSonnet45
    | Claude3Opus
    | BedrockClaudeSonnet45
    | BedrockClaudeOpus4

  /** The identifier as it travels on the wire. */
  function ModelIdText(m: ModelId): string
  {
    match m
    case Gpt51 => "gpt-5.1-2025-11-13"
    case Gpt4 => "gpt-4"
    case Gpt35Turbo => "gpt-3.5-turbo"
    case ClaudeSonnet45 => "claude-sonnet-4-5-20250929"
    case Claude3Opus => "claude-3-opus-20240229"
    case BedrockClaudeSonnet45 => "eu.anthropic.claude-sonnet-4-5-20250929-v1:0"
    case BedrockClaudeOpus4 => "eu.anthropic.claude-opus-4-20250514-v1:0"
  }

  datatype Provider = OpenAI | Anthropic | Bedrock

  datatype ParticipantRole = Primary | Critic

  /** The backend's `DiscussionStatus`. */
  datatype Status = Running | Stopped

  /** A point in time; every place the source reads the clock takes one as an input. */
  type Timestamp = int

  datatype Participant = Participant(
    id: string,
    modelId: ModelId,
    provider: Provider,
    displayName: string,
    systemPrompt: string,
    role: ParticipantRole)

  /** The sender of a message typed by the human. Any other sender is a participant id. */
  const Human: string := "human"

  datatype Message = Message(id: string, sender: string, content: string, timestamp: Timestamp)

  datatype Discussion = Discussion(
    id: string,
    topic: string,
    participants: seq<Participant>,
    messages: seq<Message>,
    status: Status)

  /** `StreamEvent`, as a tagged union: each variant carries exactly the fields
      the backend sets for that `type`. */
  datatype StreamEvent =
    | Token(participantId: string, token: string, messageId: string)
    | Complete(participantId: string, messageId: string)
    | Error(participantId: string, error: string)
    | MessageStart(message: Message)

  /** The role a provider sees a stored message under: the human's messages
      are the user's, every participant's are the assistant's. */
  datatype ChatRole = System | User | Assistant

  function SpeakerRole(sender: string): (r: ChatRole)
    ensures r != System
    ensures r == User <==> sender == Human
  {
    if sender == Human then User else Assistant
  }

  /** The concatenation of a sequence of text fragments, left to right. */
  function Concat(ss: seq<string>): string
  {
    if ss == [] then "" else Concat(ss[..|ss| - 1]) + ss[|ss| - 1]
  }

  lemma {:induction false} ConcatAppend(a: seq<string>, b: seq<string>)
    ensures Concat(a + b) == Concat(a) + Concat(b)
    decreases |b|
  {
    if b == [] {
      assert a + b == a;
    } else {
      var b', last := b[..|b| - 1], b[|b| - 1];
      var ab := a + b;
      assert ab[..|ab| - 1] == a + b' && ab[|ab| - 1] == last;
      ConcatAppend(a, b');
      calc {
        Concat(ab);
        Concat(a + b') + last;
        (Concat(a) + Concat(b')) + last;
        Concat(a) + (Concat(b') + last);
        Concat(a) + Concat(b);
      }
    }
  }

  /** The position of the first element that satisfies `p`, as `Array.prototype.find` scans. */
  function FindIndex<T>(s: seq<T>, p: T -> bool): (r: Option<nat>)
    ensures r.Some? ==> r.value < |s| && p(s[r.value])
    ensures r.Some? ==> forall j :: 0 <= j < r.value ==> !p(s[j])
    ensures r.None? <==> forall j :: 0 <= j < |s| ==> !p(s[j])
  {
    if s == [] then None
    else if p(s[0]) then Some(0)
    else match FindIndex(s[1..], p)
      case None => None
      case Some(i) => Some(i + 1)
  }

  /** `find`: the first element that satisfies `p`, or nothing. */
  function Find<T>(s: seq<T>, p: T -> bool): (r: Option<T>)
    ensures r.Some? <==> exists j :: 0 <= j < |s| && p(s[j])
    ensures r.Some? ==> p(r.value) && r.value in s
    ensures r.Some? <==> FindIndex(s, p).Some?
    ensures r.Some? ==> r.value == s[FindIndex(s, p).value]
  {
    match FindIndex(s, p)
    case None => None
    case Some(i) => Some(s[i])
  }

  /** Two sequences on which `p` agrees position by position have their first match at the same place. */
  lemma {:induction false} FindIndexAgrees<T>(a: seq<T>, b: seq<T>, p: T -> bool)
    requires |a| == |b|
    requires forall j :: 0 <= j < |a| ==> p(a[j]) == p(b[j])
    ensures FindIndex(a, p) == FindIndex(b, p)
  {
    if a != [] && !p(a[0]) {
      FindIndexAgrees(a[1..], b[1..], p);
    }
  }
}
