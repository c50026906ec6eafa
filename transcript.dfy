/** The transcript view's pure parts (frontend/src/components/DiscussionView.tsx):
    who a message is from, and the Markdown text "Copy as Markdown" builds. */
module Transcript {
  import opened Types
  import opened UiTypes

  function IdIs(senderId: string): Participant -> bool
  {
    (p: Participant) => p.id == senderId
  }

  /** `getParticipant`: nobody for the human, otherwise the first
      participant with the sender's id, if any. */
  function GetParticipant(participants: seq<Participant>, senderId: string): (r: Option<Participant>)
    ensures senderId == Human ==> r == None
    ensures r.Some? ==> exists i :: 0 <= i < |participants| && participants[i] == r.value
                          && r.value.id == senderId && forall j :: 0 <= j < i ==> participants[j].id != senderId
    ensures senderId != Human && r.None? ==> forall p :: p in participants ==> p.id != senderId
  {
    if senderId == Human then None
    else match FindIndex(participants, IdIs(senderId))
      case Some(i) => Some(participants[i])
      case None => None
  }

  /** The name a block is headed with: "You" for the human, the
      participant's display name, or "LLM" when there is no participant or
      its name is empty. */
  function SenderLabel(participants: seq<Participant>, sender: string): (r: string)
    ensures r != ""
    ensures sender == Human ==> r == "You"
    ensures sender != Human ==>
              match GetParticipant(participants, sender)
              case Some(p) => r == if p.displayName == "" then "LLM" else p.displayName
              case None => r == "LLM"
  {
    if sender == Human then "You"
    else match GetParticipant(participants, sender)
      case Some(p) => if p.displayName == "" then "LLM" else p.displayName
      case None => "LLM"
  }

  /** Where a block's content starts: after its heading line and a blank line. */
  function ContentStart(name: string, stamp: string): nat
  {
    |name| + |stamp| + 9
  }

  /** One message's block: `### name (stamp)`, a blank line, the content, a newline. */
  function Block(name: string, stamp: string, content: string): (r: string)
    ensures |r| == ContentStart(name, stamp) + |content| + 1
    ensures r[..4] == "### " && r[4..4 + |name|] == name
    ensures r[4 + |name|..6 + |name|] == " (" && r[6 + |name|..6 + |name| + |stamp|] == stamp
    ensures r[ContentStart(name, stamp) - 3..ContentStart(name, stamp)] == ")\n\n"
    ensures r[ContentStart(name, stamp)..ContentStart(name, stamp) + |content|] == content
    ensures r[|r| - 1] == '\n'
  {
    var heading := "### " + name + " (" + stamp + ")\n\n";
    assert |heading| == ContentStart(name, stamp);
    var r := heading + content + "\n";
    assert r[..4] == heading[..4];
    assert r[4..4 + |name|] == name;
    assert r[4 + |name|..6 + |name|] == " (";
    assert r[6 + |name|..6 + |name| + |stamp|] == stamp;
    assert r[|heading| - 3..|heading|] == ")\n\n";
    assert r[|heading|..|heading| + |content|] == content;
    r
  }

  const Separator: string := "\n---\n\n"

  /** `Array.prototype.join`. */
  function Join(parts: seq<string>, sep: string): string
  {
    if |parts| == 0 then ""
    else if |parts| == 1 then parts[0]
    else Join(parts[..|parts| - 1], sep) + sep + parts[|parts| - 1]
  }

  /** Where part `i` starts in the joined text: after the parts before it and one separator after each. */
  function Offset(parts: seq<string>, sep: string, i: nat): nat
    requires i <= |parts|
  {
    |Concat(parts[..i])| + i * |sep|
  }

  /** The joined text holds every part and exactly one separator between
      neighbours: nothing else. */
  lemma {:induction false} JoinLength(parts: seq<string>, sep: string)
    requires |parts| > 0
    ensures |Join(parts, sep)| == |Concat(parts)| + (|parts| - 1) * |sep|
  {
    var n := |parts|;
    assert parts[..n] == parts;
    if n > 1 {
      JoinLength(parts[..n - 1], sep);
      ConcatAppend(parts[..n - 1], [parts[n - 1]]);
      assert parts[..n - 1] + [parts[n - 1]] == parts;
      assert Concat([parts[n - 1]]) == Concat([]) + parts[n - 1];
    }
  }

  /** Part `i` sits verbatim at its offset, with a separator right before it
      unless it is the first. */
  lemma {:induction false} JoinPlacesPart(parts: seq<string>, sep: string, i: nat)
    requires i < |parts|
    ensures Offset(parts, sep, i) + |parts[i]| <= |Join(parts, sep)|
    ensures Join(parts, sep)[Offset(parts, sep, i)..Offset(parts, sep, i) + |parts[i]|] == parts[i]
    ensures i > 0 ==> Join(parts, sep)[Offset(parts, sep, i) - |sep|..Offset(parts, sep, i)] == sep
    decreases |parts|, 1
  {
    if |parts| == 1 {
      assert parts[..0] == [];
    } else if i < |parts| - 1 {
      JoinPlacesEarlierPart(parts, sep, i);
    } else {
      JoinPlacesLastPart(parts, sep);
    }
  }

  lemma {:induction false} JoinPlacesEarlierPart(parts: seq<string>, sep: string, i: nat)
    requires i < |parts| - 1
    ensures Offset(parts, sep, i) + |parts[i]| <= |Join(parts, sep)|
    ensures Join(parts, sep)[Offset(parts, sep, i)..Offset(parts, sep, i) + |parts[i]|] == parts[i]
    ensures i > 0 ==> Join(parts, sep)[Offset(parts, sep, i) - |sep|..Offset(parts, sep, i)] == sep
    decreases |parts|, 0
  {
    var n := |parts|;
    var init := parts[..n - 1];
    var j := Join(init, sep);
    var joined := Join(parts, sep);
    var rest := sep + parts[n - 1];
    assert joined == j + rest;
    var off := Offset(parts, sep, i);
    assert init[i] == parts[i];
    assert Offset(init, sep, i) == off by {
      assert init[..i] == parts[..i];
    }
    JoinPlacesPart(init, sep, i);
    assert joined[off..off + |parts[i]|] == parts[i] by {
      SliceInLeft(j, rest, off, off + |parts[i]|);
    }
    if i > 0 {
      OffsetStep(parts, sep, i - 1);
      assert joined[off - |sep|..off] == sep by {
        SliceInLeft(j, rest, off - |sep|, off);
      }
    }
  }

  lemma JoinPlacesLastPart(parts: seq<string>, sep: string)
    requires |parts| > 1
    ensures var i := |parts| - 1;
            && Offset(parts, sep, i) + |parts[i]| <= |Join(parts, sep)|
            && Join(parts, sep)[Offset(parts, sep, i)..Offset(parts, sep, i) + |parts[i]|] == parts[i]
            && Join(parts, sep)[Offset(parts, sep, i) - |sep|..Offset(parts, sep, i)] == sep
  {
    var n := |parts|;
    var init := parts[..n - 1];
    var j := Join(init, sep);
    var last := parts[n - 1];
    assert Join(parts, sep) == j + (sep + last);
    JoinLength(init, sep);
    assert init[..n - 1] == init;
    assert Offset(parts, sep, n - 1) == |j| + |sep|;
    SliceInRight(j, sep + last, |sep|, |sep| + |last|);
    SliceInRight(j, sep + last, 0, |sep|);
    assert (sep + last)[|sep|..|sep| + |last|] == last;
    assert (sep + last)[0..|sep|] == sep;
  }

  // Proof helpers: a slice of a concatenation that lies within one side.

  lemma SliceInLeft(x: string, y: string, a: nat, b: nat)
    requires a <= b <= |x|
    ensures (x + y)[a..b] == x[a..b]
  {
  }

  lemma SliceInRight(x: string, y: string, a: nat, b: nat)
    requires a <= b <= |y|
    ensures (x + y)[|x| + a..|x| + b] == y[a..b]
  {
  }

  /** A slice of a stretch known to spell `t` spells the matching slice of `t`. */
  lemma SliceWithin(s: string, t: string, a: nat, c: nat, d: nat)
    requires a + |t| <= |s| && s[a..a + |t|] == t && c <= d <= |t|
    ensures s[a + c..a + d] == t[c..d]
  {
    forall k | 0 <= k < d - c
      ensures s[a + c..a + d][k] == t[c..d][k]
    {
      assert s[a + c + k] == s[a..a + |t|][c + k];
    }
  }

  /** The next part starts one part and one separator further on. */
  lemma OffsetStep(parts: seq<string>, sep: string, i: nat)
    requires i < |parts|
    ensures Offset(parts, sep, i + 1) == Offset(parts, sep, i) + |parts[i]| + |sep|
  {
    var pre := parts[..i + 1];
    assert pre[..|pre| - 1] == parts[..i] && pre[|pre| - 1] == parts[i];
    assert |Concat(pre)| == |Concat(parts[..i])| + |parts[i]|;
    assert (i + 1) * |sep| == i * |sep| + |sep|;
  }

  /** Offsets grow with the index by at least the part in between. */
  lemma {:induction false} OffsetsIncrease(parts: seq<string>, sep: string, i: nat, k: nat)
    requires i < k <= |parts|
    ensures Offset(parts, sep, i) + |parts[i]| + |sep| <= Offset(parts, sep, k)
    decreases k - i
  {
    OffsetStep(parts, sep, i);
    if i + 1 < k {
      OffsetsIncrease(parts, sep, i + 1, k);
    }
  }

  /** The block of every message, in transcript order; `stamp` is the
      host's `toLocaleString` of a timestamp. */
  function Blocks(messages: seq<UiMessage>, participants: seq<Participant>, stamp: Timestamp -> string): (r: seq<string>)
    ensures |r| == |messages|
  {
    seq(|messages|, i requires 0 <= i < |messages| =>
          Block(SenderLabel(participants, messages[i].sender), stamp(messages[i].timestamp), messages[i].content))
  }

  /** `copyAsMarkdown`: the blocks joined by a horizontal rule. */
  function CopyAsMarkdown(messages: seq<UiMessage>, participants: seq<Participant>, stamp: Timestamp -> string): (r: string)
    ensures r == "" <==> |messages| == 0
    ensures |messages| > 0 ==> |r| >= 4 && r[..4] == "### "
  {
    var blocks := Blocks(messages, participants, stamp);
    var r := Join(blocks, Separator);
    if |messages| == 0 then r
    else
      var first := Block(SenderLabel(participants, messages[0].sender), stamp(messages[0].timestamp), messages[0].content);
      JoinPlacesPart(blocks, Separator, 0);
      assert Offset(blocks, Separator, 0) == 0 by { assert blocks[..0] == []; }
      assert blocks[0] == first && r[..|first|] == first;
      assert r[..4] == first[..4];
      r
  }

  /** Where message `i`'s content sits in the export. */
  function ContentAt(messages: seq<UiMessage>, participants: seq<Participant>, stamp: Timestamp -> string, i: nat): nat
    requires i < |messages|
  {
    Offset(Blocks(messages, participants, stamp), Separator, i)
    + ContentStart(SenderLabel(participants, messages[i].sender), stamp(messages[i].timestamp))
  }

  /** An empty transcript exports as the empty text; otherwise the export is
      the blocks and one separator between each two neighbours. */
  lemma ExportLength(messages: seq<UiMessage>, participants: seq<Participant>, stamp: Timestamp -> string)
    ensures messages == [] ==> CopyAsMarkdown(messages, participants, stamp) == ""
    ensures messages != [] ==>
              |CopyAsMarkdown(messages, participants, stamp)|
              == |Concat(Blocks(messages, participants, stamp))| + (|messages| - 1) * |Separator|
  {
    if messages != [] {
      JoinLength(Blocks(messages, participants, stamp), Separator);
    }
  }

  /** Every message's content appears verbatim in the export, at its place,
      and after the first each block is preceded by the separator. */
  lemma ExportShowsContent(messages: seq<UiMessage>, participants: seq<Participant>, stamp: Timestamp -> string, i: nat)
    requires i < |messages|
    ensures var md := CopyAsMarkdown(messages, participants, stamp);
            var at := ContentAt(messages, participants, stamp, i);
            && at + |messages[i].content| <= |md|
            && md[at..at + |messages[i].content|] == messages[i].content
  {
    var blocks := Blocks(messages, participants, stamp);
    var md := CopyAsMarkdown(messages, participants, stamp);
    assert md == Join(blocks, Separator);
    var off := Offset(blocks, Separator, i);
    JoinPlacesPart(blocks, Separator, i);
    var start := ContentStart(SenderLabel(participants, messages[i].sender), stamp(messages[i].timestamp));
    BlockShowsContent(messages, participants, stamp, i);
    SliceWithin(md, blocks[i], off, start, start + |messages[i].content|);
  }

  /** Proof helper: message `i`'s block spells its content from `ContentStart` on. */
  lemma BlockShowsContent(messages: seq<UiMessage>, participants: seq<Participant>, stamp: Timestamp -> string, i: nat)
    requires i < |messages|
    ensures var b := Blocks(messages, participants, stamp)[i];
            var start := ContentStart(SenderLabel(participants, messages[i].sender), stamp(messages[i].timestamp));
            && start + |messages[i].content| <= |b|
            && b[start..start + |messages[i].content|] == messages[i].content
  {
  }

  /** The contents appear in transcript order, none overlapping the next. */
  lemma ExportKeepsOrder(messages: seq<UiMessage>, participants: seq<Participant>, stamp: Timestamp -> string, i: nat, k: nat)
    requires i < k < |messages|
    ensures ContentAt(messages, participants, stamp, i) + |messages[i].content| < ContentAt(messages, participants, stamp, k)
  {
    OffsetsIncrease(Blocks(messages, participants, stamp), Separator, i, k);
  }
}
