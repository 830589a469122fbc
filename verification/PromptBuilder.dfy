/**
 * Turning the recent messages of a conversation into the turns a model is given:
 * one system message, then user and assistant turns that alternate and end with the user.
 */
module PromptBuilder {
  import opened Common

  type Id = nat

  const VISION_MIMES := {"image/jpeg", "image/jpg", "image/png", "image/gif", "image/webp"}

  datatype Role = System | User | Assistant

  datatype Part = Text(text: string) | Image(url: string)

  /** What was resolved for an image: its address and lower-cased type, empty when unknown. */
  datatype Media = Media(url: string, mime: string)

  /** A message with the text that was extracted from it. */
  datatype Message = Message(id: Id, inbound: bool, image: bool, text: string)

  datatype Content = Parts(parts: seq<Part>) | Plain(text: string)

  datatype Turn = Turn(role: Role, content: Content)

  // ------------------------------------------------------------------- parts

  function RoleOf(m: Message): Role {
    if m.inbound then User else Assistant
  }

  predicate Showable(media: Option<Media>) {
    media.Some? && media.value.url != "" && (media.value.mime == "" || media.value.mime in VISION_MIMES)
  }

  /** The text put in place of an image that cannot be shown. */
  function Placeholder(media: Option<Media>): string {
    if media.Some? && media.value.url != ""
    then "[imagem enviada — formato " + media.value.mime + " não suportado para vision]"
    else "[imagem enviada — não foi possível carregar pra eu visualizar]"
  }

  function MediaOf(mediaUrls: map<Id, Media>, id: Id): Option<Media> {
    if id in mediaUrls then Some(mediaUrls[id]) else None
  }

  /** Images are shown only in user turns, before the caption. */
  function PartsOf(m: Message, mediaUrls: map<Id, Media>, role: Role): seq<Part> {
    var media := MediaOf(mediaUrls, m.id);
    (if role == User && m.image
     then [if Showable(media) then Image(media.value.url) else Text(Placeholder(media))] else [])
    + (if m.text != "" then [Text(m.text)] else [])
  }

  // ------------------------------------------------------------------- turns

  /** Something said: by one message, or by a turn while it is being put together. */
  datatype Draft = Draft(role: Role, parts: seq<Part>)

  /** What each message says, in order. */
  function Utterances(messages: seq<Message>, mediaUrls: map<Id, Media>): seq<Draft> {
    seq(|messages|, i requires 0 <= i < |messages| =>
      Draft(RoleOf(messages[i]), PartsOf(messages[i], mediaUrls, RoleOf(messages[i]))))
  }

  function Take(turns: seq<Draft>, d: Draft): seq<Draft> {
    if d.parts == [] then turns
    else if turns != [] && turns[|turns| - 1].role == d.role
    then turns[..|turns| - 1] + [Draft(d.role, turns[|turns| - 1].parts + d.parts)]
    else turns + [d]
  }

  function Turns(said: seq<Draft>): seq<Draft> {
    if said == [] then [] else Take(Turns(said[..|said| - 1]), said[|said| - 1])
  }

  /** Parts with the role they are said in. */
  function Said(role: Role, parts: seq<Part>): seq<(Role, Part)> {
    seq(|parts|, i requires 0 <= i < |parts| => (role, parts[i]))
  }

  function Flat(turns: seq<Draft>): seq<(Role, Part)> {
    if turns == [] then []
    else Flat(turns[..|turns| - 1]) + Said(turns[|turns| - 1].role, turns[|turns| - 1].parts)
  }

  predicate Alternates(turns: seq<Draft>) {
    && (forall i :: 0 <= i < |turns| ==> turns[i].role != System && turns[i].parts != [])
    && forall i :: 0 < i < |turns| ==> turns[i - 1].role != turns[i].role
  }

  lemma FlatAdds(turns: seq<Draft>, d: Draft)
    ensures Flat(turns + [d]) == Flat(turns) + Said(d.role, d.parts)
  {
    assert (turns + [d])[..|turns|] == turns;
  }

  lemma TakeFlattens(turns: seq<Draft>, d: Draft)
    ensures Flat(Take(turns, d)) == Flat(turns) + Said(d.role, d.parts)
  {
    if d.parts == [] {
      assert Said(d.role, d.parts) == [];
    } else {
      FlatAdds(turns, d);
      if turns != [] && turns[|turns| - 1].role == d.role {
        var front, last := turns[..|turns| - 1], turns[|turns| - 1];
        FlatAdds(front, Draft(d.role, last.parts + d.parts));
        assert Said(d.role, last.parts + d.parts) == Said(d.role, last.parts) + Said(d.role, d.parts);
      }
    }
  }

  /** Merging loses, repeats and reorders nothing: the turns say exactly what was said. */
  lemma {:induction false} TurnsSayTheSame(said: seq<Draft>)
    ensures Flat(Turns(said)) == Flat(said)
  {
    if said != [] {
      TurnsSayTheSame(said[..|said| - 1]);
      TakeFlattens(Turns(said[..|said| - 1]), said[|said| - 1]);
    }
  }

  lemma {:induction false} TurnsAlternate(said: seq<Draft>)
    requires forall d :: d in said ==> d.role != System
    ensures Alternates(Turns(said))
  {
    if said != [] {
      assert said[|said| - 1] in said;
      TurnsAlternate(said[..|said| - 1]);
    }
  }

  lemma SomethingIsSaid(turns: seq<Draft>)
    requires Alternates(turns) && turns != []
    ensures Flat(turns) != []
  {
    assert turns[|turns| - 1].parts != [];
  }

  // ---------------------------------------------------------- joining and end

  predicate OnlyText(parts: seq<Part>) {
    forall p :: p in parts ==> p.Text?
  }

  function Lines(parts: seq<Part>): string
    requires OnlyText(parts)
  {
    if parts == [] then ""
    else if |parts| == 1 then parts[0].text
    else Break(Lines(parts[..|parts| - 1]), parts[|parts| - 1].text)
  }

  function Joined(parts: seq<Part>): Content {
    if OnlyText(parts) then Plain(Lines(parts)) else Parts(parts)
  }

  function AllJoined(turns: seq<Draft>): seq<Turn> {
    seq(|turns|, i requires 0 <= i < |turns| => Turn(turns[i].role, Joined(turns[i].parts)))
  }

  /** The user's last word: the message that triggered the run, or a neutral one. */
  function Closing(trigger: seq<Part>): Turn {
    Turn(User, if trigger == [] then Plain("[continue]") else Joined(trigger))
  }

  function Conversation(said: seq<Draft>, trigger: seq<Part>): seq<Turn> {
    var turns := AllJoined(Turns(said));
    if turns == [] || turns[|turns| - 1].role != User then turns + [Closing(trigger)] else turns
  }

  ghost predicate Orderly(c: seq<Turn>) {
    && c != [] && c[|c| - 1].role == User
    && (forall i :: 0 <= i < |c| ==> c[i].role != System)
    && forall i :: 0 < i < |c| ==> c[i - 1].role != c[i].role
  }

  /**
   * For any history: turns of user and assistant alternate strictly and end with the user; they are the
   * merged turns, which say exactly what the messages say, and at most one closing turn.
   */
  lemma ConversationIsOrderly(said: seq<Draft>, trigger: seq<Part>)
    requires forall d :: d in said ==> d.role != System
    ensures var c := Conversation(said, trigger);
      && Orderly(c)
      && Flat(Turns(said)) == Flat(said)
      && AllJoined(Turns(said)) <= c && |c| <= |Turns(said)| + 1
  {
    TurnsSayTheSame(said);
    TurnsAlternate(said);
  }

  /** A history in which nothing is said gives the closing turn alone. */
  lemma SilentHistory(said: seq<Draft>, trigger: seq<Part>)
    requires Flat(said) == [] && forall d :: d in said ==> d.role != System
    ensures Conversation(said, trigger) == [Closing(trigger)]
  {
    TurnsSayTheSame(said);
    TurnsAlternate(said);
    if Turns(said) != [] { SomethingIsSaid(Turns(said)); }
  }

  // --------------------------------------------------------- what is kept of it

  /** What one message says: a shown image or a stand-in for it, only when the customer sent it, then its text. */
  lemma PartsSay(m: Message, mediaUrls: map<Id, Media>)
    ensures var parts := PartsOf(m, mediaUrls, RoleOf(m));
      var text := if m.text == "" then [] else [Text(m.text)];
      if !m.inbound || !m.image then parts == text
      else
        && parts != [] && parts[1..] == text
        && (if m.id in mediaUrls && Shown(mediaUrls[m.id]) then parts[0] == Image(mediaUrls[m.id].url)
            else parts[0] == Text(
              if m.id in mediaUrls && mediaUrls[m.id].url != ""
              then "[imagem enviada — formato " + mediaUrls[m.id].mime + " não suportado para vision]"
              else "[imagem enviada — não foi possível carregar pra eu visualizar]"))
    ensures RoleOf(m) == if m.inbound then User else Assistant
  {
  }

  /** There is an address, and the type is unknown or one the model can see. */
  predicate Shown(media: Media) {
    media.url != "" && media.mime in {"", "image/jpeg", "image/jpg", "image/png", "image/gif", "image/webp"}
  }

  /** One more message is heard after all others, as its author's. */
  lemma OneMoreMessage(recent: seq<Message>, m: Message, mediaUrls: map<Id, Media>)
    ensures Flat(Turns(Utterances(recent + [m], mediaUrls))) ==
      Flat(Turns(Utterances(recent, mediaUrls)))
      + Said(if m.inbound then User else Assistant, PartsOf(m, mediaUrls, RoleOf(m)))
  {
    var said, d := Utterances(recent, mediaUrls), Draft(RoleOf(m), PartsOf(m, mediaUrls, RoleOf(m)));
    assert Utterances(recent + [m], mediaUrls) == said + [d];
    TurnsSayTheSame(said);
    TurnsSayTheSame(said + [d]);
    FlatAdds(said, d);
  }

  /** The lines of a text. */
  function SplitLines(text: string): (lines: seq<string>)
    ensures lines != []
  {
    if text == "" then [""]
    else
      var front, last := SplitLines(text[..|text| - 1]), text[|text| - 1];
      Added(front, last)
  }

  /** One more character: a line break begins a new line. */
  function Added(lines: seq<string>, c: char): (more: seq<string>)
    requires lines != []
    ensures more != []
  {
    if c == '\n' then lines + [""] else lines[..|lines| - 1] + [lines[|lines| - 1] + [c]]
  }

  lemma SplitSnoc(text: string, c: char)
    ensures SplitLines(text + [c]) == Added(SplitLines(text), c)
  {
    assert (text + [c])[..|text|] == text;
  }

  function Break(a: string, b: string): string {
    a + "\n" + b
  }

  lemma BreakSnoc(a: string, b: string, c: char)
    ensures Break(a, b + [c]) == Break(a, b) + [c]
  {
  }

  lemma {:induction false} SplitBreak(a: string, b: string)
    ensures SplitLines(Break(a, b)) == SplitLines(a) + SplitLines(b)
  {
    if b == "" {
      SplitSnoc(a, '\n');
      assert Break(a, b) == a + ['\n'];
    } else {
      var front, last := b[..|b| - 1], b[|b| - 1];
      SplitBreak(a, front);
      BreakSnoc(a, front, last);
      SplitSnoc(Break(a, front), last);
      SplitSnoc(front, last);
      assert front + [last] == b;
      AddedBehind(SplitLines(a), SplitLines(front), last);
    }
  }

  lemma AddedBehind(a: seq<string>, b: seq<string>, c: char)
    requires b != []
    ensures Added(a + b, c) == a + Added(b, c)
  {
  }

  lemma {:induction false} NoBreakIsOneLine(text: string)
    requires '\n' !in text
    ensures SplitLines(text) == [text]
  {
    if text != "" {
      NoBreakIsOneLine(text[..|text| - 1]);
      assert text == text[..|text| - 1] + [text[|text| - 1]];
    }
  }

  /** The lines of all texts, one text after the other. */
  function LinesOf(parts: seq<Part>): seq<string>
    requires OnlyText(parts)
  {
    if parts == [] then [] else LinesOf(parts[..|parts| - 1]) + SplitLines(parts[|parts| - 1].text)
  }

  function TextsOf(parts: seq<Part>): seq<string>
    requires OnlyText(parts)
  {
    seq(|parts|, i requires 0 <= i < |parts| => parts[i].text)
  }

  /** A text-only turn reads, line by line, as its texts do one after the other; no line is lost or run together. */
  lemma {:induction false} LinesKeepTexts(parts: seq<Part>)
    requires OnlyText(parts) && parts != []
    ensures SplitLines(Lines(parts)) == LinesOf(parts)
  {
    var n := |parts| - 1;
    if n > 0 {
      LinesKeepTexts(parts[..n]);
      SplitBreak(Lines(parts[..n]), parts[n].text);
    } else {
      assert LinesOf(parts[..0]) == [];
    }
  }

  lemma {:induction false} OneLineEach(parts: seq<Part>)
    requires OnlyText(parts) && forall p :: p in parts ==> '\n' !in p.text
    ensures LinesOf(parts) == TextsOf(parts)
  {
    if parts != [] {
      var front, last := parts[..|parts| - 1], parts[|parts| - 1];
      assert last in parts && forall p :: p in front ==> p in parts;
      OneLineEach(front);
      NoBreakIsOneLine(last.text);
      OneMoreText(front, last);
      assert front + [last] == parts;
    }
  }

  lemma OneMoreText(front: seq<Part>, last: Part)
    requires OnlyText(front) && last.Text?
    ensures OnlyText(front + [last]) && TextsOf(front + [last]) == TextsOf(front) + [last.text]
  {
  }

  /** The closing turn is the user's, and carries the trigger or, if that says nothing, a word to go on. */
  lemma ClosingSays(trigger: seq<Part>)
    ensures var c := Closing(trigger);
      && c.role == User
      && (trigger == [] ==> c.content == Plain("[continue]"))
      && (trigger != [] && OnlyText(trigger) ==> c.content == Plain(Lines(trigger)))
      && (!OnlyText(trigger) ==> c.content == Parts(trigger))
  {
  }

  // ----------------------------------------------------------------- the loop

  /** The messages sent: the system message, then the conversation. */
  method BuildMessages(system: seq<Part>, recent: seq<Message>, trigger: Message, mediaUrls: map<Id, Media>)
    returns (messages: seq<Turn>)
    ensures messages == [Turn(System, Parts(system))]
      + Conversation(Utterances(recent, mediaUrls), PartsOf(trigger, mediaUrls, User))
    ensures messages[0] == Turn(System, Parts(system)) && Orderly(messages[1..])
  {
    messages := AllMessages(system, recent, trigger, mediaUrls);
    ConversationIsOrderly(Utterances(recent, mediaUrls), PartsOf(trigger, mediaUrls, User));
    assert messages[1..] == Conversation(Utterances(recent, mediaUrls), PartsOf(trigger, mediaUrls, User));
  }

  method AllMessages(system: seq<Part>, recent: seq<Message>, trigger: Message, mediaUrls: map<Id, Media>)
    returns (messages: seq<Turn>)
    ensures messages == [Turn(System, Parts(system))]
      + Conversation(Utterances(recent, mediaUrls), PartsOf(trigger, mediaUrls, User))
  {
    ghost var said := Utterances(recent, mediaUrls);
    var first := Turn(System, Parts(system));
    messages := CollectTurns(first, recent, mediaUrls);
    TurnsAlternate(said);
    messages := JoinTexts(first, Turns(said), messages);
    ghost var turns := AllJoined(Turns(said));
    assert messages[|messages| - 1] == if turns == [] then first else turns[|turns| - 1];
    messages := CloseWithUser(messages, PartsOf(trigger, mediaUrls, User));
  }

  method CloseWithUser(messages: seq<Turn>, trigger: seq<Part>) returns (closed: seq<Turn>)
    requires messages != []
    ensures closed == if messages[|messages| - 1].role == User then messages else messages + [Closing(trigger)]
  {
    closed := messages;
    var tail := messages[|messages| - 1];
    if tail.role != User {
      if trigger != [] {
        closed := messages + [Turn(User, if OnlyText(trigger) then Plain(Lines(trigger)) else Parts(trigger))];
      } else {
        closed := messages + [Turn(User, Plain("[continue]"))];
      }
    }
  }

  function Drafted(turns: seq<Draft>): seq<Turn> {
    seq(|turns|, i requires 0 <= i < |turns| => Turn(turns[i].role, Parts(turns[i].parts)))
  }

  lemma TakeDrafted(system: Turn, turns: seq<Draft>, d: Draft)
    requires system.role == System && d.role != System && d.parts != []
    ensures var ms := [system] + Drafted(turns);
      var last := ms[|ms| - 1];
      [system] + Drafted(Take(turns, d)) ==
        if last.role == d.role
        then ms[..|ms| - 1] + [Turn(d.role, Parts((if last.content.Parts? then last.content.parts else []) + d.parts))]
        else ms + [Turn(d.role, Parts(d.parts))]
  {
  }

  /** Consecutive messages of one author become one turn; messages with nothing to say are passed over. */
  method CollectTurns(system: Turn, recent: seq<Message>, mediaUrls: map<Id, Media>) returns (messages: seq<Turn>)
    requires system.role == System
    ensures messages == [system] + Drafted(Turns(Utterances(recent, mediaUrls)))
  {
    ghost var said := Utterances(recent, mediaUrls);
    messages := [system];
    for i := 0 to |recent|
      invariant messages == [system] + Drafted(Turns(said[..i]))
    {
      var m := recent[i];
      assert said[..i + 1][..i] == said[..i];
      var role := if m.inbound then User else Assistant;
      var parts := PartsOf(m, mediaUrls, role);
      if parts == [] { continue; }
      TakeDrafted(system, Turns(said[..i]), said[i]);
      var last := messages[|messages| - 1];
      if last.role == role {
        messages := messages[..|messages| - 1]
          + [Turn(role, Parts((if last.content.Parts? then last.content.parts else []) + parts))];
      } else {
        messages := messages + [Turn(role, Parts(parts))];
      }
    }
    assert said[..|recent|] == said;
  }

  /** Text-only turns become plain text, line by line; the system message stays as it is. */
  method JoinTexts(system: Turn, ghost turns: seq<Draft>, drafts: seq<Turn>) returns (messages: seq<Turn>)
    requires system.role == System && drafts == [system] + Drafted(turns)
    requires forall i :: 0 <= i < |turns| ==> turns[i].role != System
    ensures messages == [system] + AllJoined(turns)
  {
    messages := drafts;
    for i := 0 to |messages|
      invariant |messages| == |drafts|
      invariant forall j :: i <= j < |messages| ==> messages[j] == drafts[j]
      invariant i > 0 ==> messages[0] == drafts[0]
      invariant forall j :: 1 <= j < i ==> messages[j] == AllJoined(turns)[j - 1]
    {
      var m := messages[i];
      if m.role != System && m.content.Parts? && OnlyText(m.content.parts) {
        messages := messages[i := Turn(m.role, Plain(Lines(m.content.parts)))];
      }
    }
  }
}
