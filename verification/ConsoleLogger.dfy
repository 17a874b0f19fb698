/**
 * The console logger's group stack. Groups are mutable objects: an opened group is pushed on the
 * stack and also becomes the last line of its parent, so that what is logged later reaches the
 * tree through either reference. The reference is a recursive parse of the messages.
 */
module ConsoleLogger {
  import opened JsString
  import opened Wrappers

  // ----- messages -----

  datatype Message =
    | Open(name: string, collapse: bool)
    | Close(result: string)
    | Print(lines: seq<string>)

  const HATCHLING := "\U{1F423}"
  const CLAMP := "\U{1F5DC}\U{FE0F}"
  const EGG := "\U{1F95A} "

  /** `replace` with a string: the first occurrence is dropped. */
  function DropFirst(s: string, sub: string): string {
    if |s| < |sub| then s
    else if s[..|sub|] == sub then s[|sub|..]
    else if s == "" then s
    else [s[0]] + DropFirst(s[1..], sub)
  }

  /** `split("\n")`. */
  function SplitLines(s: string): (lines: seq<string>)
    ensures lines != []
  {
    if s == "" then [""]
    else
      var rest := SplitLines(s[1..]);
      if s[0] == '\n' then [""] + rest else [[s[0]] + rest[0]] + rest[1..]
  }

  function Classify(message: string): Message {
    if HATCHLING <= message then
      Open(TrimStart(DropFirst(DropFirst(message, HATCHLING), CLAMP)), HATCHLING + CLAMP <= message)
    else if EGG <= message then Close(DropFirst(message, EGG))
    else Print(SplitLines(message))
  }

  /** Lines put together again. */
  function Join(lines: seq<string>): string
    requires lines != []
  {
    if |lines| == 1 then lines[0] else lines[0] + "\n" + Join(lines[1..])
  }

  lemma {:induction false} SplitJoins(s: string)
    ensures Join(SplitLines(s)) == s
    ensures forall i :: 0 <= i < |SplitLines(s)| ==> '\n' !in SplitLines(s)[i]
  {
    if s != "" {
      SplitJoins(s[1..]);
      var rest := SplitLines(s[1..]);
      if s[0] == '\n' {
        assert SplitLines(s)[1..] == rest;
      } else {
        assert SplitLines(s)[1..] == rest[1..];
      }
    }
  }

  predicate StandsAt(s: string, word: string, i: nat) {
    i + |word| <= |s| && s[i..i + |word|] == word
  }

  /** The first occurrence is dropped, and nothing else. */
  lemma {:induction false} DropFirstDrops(s: string, word: string, i: nat)
    requires StandsAt(s, word, i) && forall j :: 0 <= j < i ==> !StandsAt(s, word, j)
    ensures DropFirst(s, word) == s[..i] + s[i + |word|..]
  {
    if i == 0 {
      assert s[..|word|] == word;
    } else {
      assert !StandsAt(s, word, 0);
      forall j | 0 <= j < i - 1 ensures !StandsAt(s[1..], word, j) {
        assert !StandsAt(s, word, j + 1);
        assert j + |word| < |s| ==> s[1..][j..j + |word|] == s[j + 1..j + 1 + |word|];
      }
      assert s[1..][i - 1..i - 1 + |word|] == s[i..i + |word|];
      DropFirstDrops(s[1..], word, i - 1);
      assert [s[0]] + (s[1..][..i - 1] + s[1..][i - 1 + |word|..]) == s[..i] + s[i + |word|..];
    }
  }

  lemma {:induction false} DropFirstOfNone(s: string, word: string)
    requires forall j :: 0 <= j <= |s| ==> !StandsAt(s, word, j)
    ensures DropFirst(s, word) == s
  {
    assert !StandsAt(s, word, 0);
    if s != "" {
      forall j | 0 <= j < |s| ensures !StandsAt(s[1..], word, j) {
        assert !StandsAt(s, word, j + 1);
        assert j + |word| < |s| ==> s[1..][j..j + |word|] == s[j + 1..j + 1 + |word|];
      }
      DropFirstOfNone(s[1..], word);
    }
  }

  lemma {:induction false} TrimStartTrims(s: string)
    ensures var n := |s| - |TrimStart(s)|;
            && n >= 0 && s[n..] == TrimStart(s) && (forall i :: 0 <= i < n ==> IsSpace(s[i]))
            && (TrimStart(s) != "" ==> !IsSpace(TrimStart(s)[0]))
  {
    if s != "" && IsSpace(s[0]) {
      TrimStartTrims(s[1..]);
    }
  }

  /** `name` is the text without its leading white space. */
  predicate IsTrimmed(text: string, name: string) {
    && |name| <= |text| && text[|text| - |name|..] == name
    && (forall i :: 0 <= i < |text| - |name| ==> IsSpace(text[i])) && (name != "" ==> !IsSpace(name[0]))
  }

  /** The word occurs here, and not before. */
  predicate FirstStands(s: string, word: string, i: nat) {
    StandsAt(s, word, i) && forall j :: 0 <= j < i ==> !StandsAt(s, word, j)
  }

  /** The name that an opening message gives after its mark: the text without the first clamp, and
      without leading white space; the group is collapsed when the text begins with the clamp. */
  ghost predicate IsNameIn(text: string, name: string, collapse: bool) {
    var clamp := "\U{1F5DC}\U{FE0F}";
    && (collapse <==> StandsAt(text, clamp, 0))
    && ((forall i: nat :: !StandsAt(text, clamp, i)) ==> IsTrimmed(text, name))
    && forall i: nat :: FirstStands(text, clamp, i) ==> IsTrimmed(text[..i] + text[i + 2..], name)
  }

  /** Main result: what a message is, and that all of its text is kept: a printed message is its lines, a
      closing one its result, and an opening one its name, but for the first clamp and white space. */
  lemma MessageIsKept(message: string)
    ensures match Classify(message)
            case Print(lines) =>
              && !("\U{1F423}" <= message) && !("\U{1F95A} " <= message)
              && lines != [] && Join(lines) == message && forall i :: 0 <= i < |lines| ==> '\n' !in lines[i]
            case Close(result) => message == "\U{1F95A} " + result
            case Open(name, collapse) => "\U{1F423}" <= message && IsNameIn(message[1..], name, collapse)
  {
    hide IsNameIn, SplitLines, Join, TrimStart, DropFirst;
    if HATCHLING <= message {
      OpenIsKept(message);
    } else if EGG <= message {
      DropFirstDrops(message, EGG, 0);
    } else {
      SplitJoins(message);
    }
  }

  lemma OpenIsKept(message: string)
    requires HATCHLING <= message
    ensures IsNameIn(message[1..], TrimStart(DropFirst(DropFirst(message, HATCHLING), CLAMP)), HATCHLING + CLAMP <= message)
  {
    var rest := message[1..];
    assert message == HATCHLING + rest;
    assert DropFirst(message, HATCHLING) == rest by {
      DropFirstDrops(message, HATCHLING, 0);
      assert message[..0] + rest == rest;
    }
    assert HATCHLING + CLAMP <= message <==> StandsAt(rest, CLAMP, 0);
    NameIsKept(rest, HATCHLING + CLAMP <= message);
  }

  lemma NameIsKept(rest: string, collapse: bool)
    requires collapse <==> StandsAt(rest, CLAMP, 0)
    ensures IsNameIn(rest, TrimStart(DropFirst(rest, CLAMP)), collapse)
  {
    var text := DropFirst(rest, CLAMP);
    TrimStartTrims(text);
    hide TrimStart, DropFirst;
    assert IsTrimmed(text, TrimStart(text));
    hide IsTrimmed;
    if forall i: nat :: !StandsAt(rest, CLAMP, i) {
      DropFirstOfNone(rest, CLAMP);
    }
    forall i: nat | FirstStands(rest, CLAMP, i) ensures text == rest[..i] + rest[i + 2..] {
      DropFirstDrops(rest, CLAMP, i);
    }
  }

  // ----- trees -----

  datatype Tree = Tree(name: string, collapse: bool, lines: seq<Item>, result: Option<string>)
  datatype Item = TextItem(text: string) | GroupItem(tree: Tree)

  const TOP := Tree("", false, [], None)

  function Texts(lines: seq<string>): seq<Item> {
    if lines == [] then [] else [TextItem(lines[0])] + Texts(lines[1..])
  }

  /** The items of one group, how it was closed if it was, and the messages after it. */
  datatype Parsed = Parsed(items: seq<Item>, result: Option<string>, rest: seq<Message>)

  /** Recursive parse of one group's messages; at the top level a close has nothing to close. */
  function Parse(ms: seq<Message>, top: bool): (p: Parsed)
    ensures |p.rest| <= |ms|
    decreases |ms|
  {
    if ms == [] then Parsed([], None, [])
    else match ms[0]
      case Print(lines) => var p := Parse(ms[1..], top); p.(items := Texts(lines) + p.items)
      case Close(result) => if top then Parse(ms[1..], top) else Parsed([], Some(result), ms[1..])
      case Open(name, collapse) =>
        var inner := Parse(ms[1..], false);
        var p := Parse(inner.rest, top);
        p.(items := [GroupItem(Tree(name, collapse, inner.items, inner.result))] + p.items)
  }

  // ----- the stack, as values -----

  /** The open groups, outermost first, each without its open child. */
  type Frames = s: seq<Tree> | s != [] witness [TOP]

  function Front<T>(s: seq<T>): seq<T>
    requires s != []
  {
    s[..|s| - 1]
  }

  function Last<T>(s: seq<T>): T
    requires s != []
  {
    s[|s| - 1]
  }

  function AddTo(frames: Frames, items: seq<Item>): Frames {
    Front(frames) + [Last(frames).(lines := Last(frames).lines + items)]
  }

  function Step(frames: Frames, m: Message): Frames {
    match m
    case Print(lines) => AddTo(frames, Texts(lines))
    case Open(name, collapse) => frames + [Tree(name, collapse, [], None)]
    case Close(result) =>
      if |frames| == 1 then frames
      else AddTo(Front(frames), [GroupItem(Last(frames).(result := Some(result)))])
  }

  function Run(frames: Frames, ms: seq<Message>): Frames
    decreases |ms|
  {
    if ms == [] then frames else Run(Step(frames, ms[0]), ms[1..])
  }

  /** The tree whose rightmost open spine the frames are. */
  function Whole(frames: Frames): Tree
    decreases |frames|
  {
    if |frames| == 1 then frames[0] else Whole(AddTo(Front(frames), [GroupItem(Last(frames))]))
  }

  /** The tree that parsing `ms` in the innermost open group, and so on outwards, would give. */
  function Resume(frames: Frames, ms: seq<Message>): Tree
    decreases |frames|
  {
    var p := Parse(ms, |frames| == 1);
    var f := Last(frames).(lines := Last(frames).lines + p.items);
    if |frames| == 1 then f
    else
      var closed := if p.result.Some? then f.(result := p.result) else f;
      Resume(AddTo(Front(frames), [GroupItem(closed)]), p.rest)
  }

  lemma {:induction false} ResumeNothing(frames: Frames)
    ensures Resume(frames, []) == Whole(frames)
    decreases |frames|
  {
    var f := Last(frames);
    assert f.lines + [] == f.lines;
    if |frames| > 1 {
      ResumeNothing(AddTo(Front(frames), [GroupItem(f)]));
    }
  }

  /** One message moves from what is to be parsed into the frames. */
  lemma ResumeStep(frames: Frames, ms: seq<Message>)
    requires ms != []
    ensures Resume(frames, ms) == Resume(Step(frames, ms[0]), ms[1..])
  {
    match ms[0]
    case Print(lines) => ResumePrint(frames, ms);
    case Close(result) => assert Last(frames).lines + [] == Last(frames).lines;
    case Open(name, collapse) => ResumeOpen(frames, ms);
  }

  /** Items may be in the frames already or still be to come from the parse. */
  lemma ResumeMoved(frames: Frames, items: seq<Item>, ms: seq<Message>, later: seq<Message>)
    requires var p := Parse(later, |frames| == 1); Parse(ms, |frames| == 1) == p.(items := items + p.items)
    ensures Resume(frames, ms) == Resume(AddTo(frames, items), later)
  {
    hide Parse;
    var f, p := Last(frames), Parse(later, |frames| == 1);
    assert f.lines + (items + p.items) == (f.lines + items) + p.items;
    assert Front(AddTo(frames, items)) == Front(frames);
  }

  lemma ResumePrint(frames: Frames, ms: seq<Message>)
    requires ms != [] && ms[0].Print?
    ensures Resume(frames, ms) == Resume(Step(frames, ms[0]), ms[1..])
  {
    hide Texts, Resume;
    ResumeMoved(frames, Texts(ms[0].lines), ms, ms[1..]);
  }

  /** Parsing on in the innermost group and then in the one around it. */
  lemma ResumeInner(frames: Frames, name: string, collapse: bool, ms: seq<Message>)
    ensures var inner := Parse(ms, false);
            Resume(frames + [Tree(name, collapse, [], None)], ms)
            == Resume(AddTo(frames, [GroupItem(Tree(name, collapse, inner.items, inner.result))]), inner.rest)
  {
    hide Parse, AddTo;
    var longer := frames + [Tree(name, collapse, [], None)];
    var inner := Parse(ms, false);
    assert [] + inner.items == inner.items;
    assert Front(longer) == frames;
  }

  lemma ResumeOpen(frames: Frames, ms: seq<Message>)
    requires ms != [] && ms[0].Open?
    ensures Resume(frames, ms) == Resume(Step(frames, ms[0]), ms[1..])
  {
    hide Resume, AddTo;
    var inner := Parse(ms[1..], false);
    var g := GroupItem(Tree(ms[0].name, ms[0].collapse, inner.items, inner.result));
    ResumeInner(frames, ms[0].name, ms[0].collapse, ms[1..]);
    ResumeMoved(frames, [g], ms, inner.rest);
  }

  lemma {:induction false} RunIsResume(frames: Frames, ms: seq<Message>)
    ensures Whole(Run(frames, ms)) == Resume(frames, ms)
    decreases |ms|
  {
    hide Step, Resume, Whole;
    if ms == [] {
      ResumeNothing(frames);
    } else {
      ResumeStep(frames, ms);
      RunIsResume(Step(frames, ms[0]), ms[1..]);
    }
  }

  /** Main result: replaying the messages through the stack gives the tree of the recursive parse. */
  lemma StackIsParse(ms: seq<Message>)
    ensures Whole(Run([TOP], ms)) == TOP.(lines := Parse(ms, true).items)
  {
    RunIsResume([TOP], ms);
    assert [] + Parse(ms, true).items == Parse(ms, true).items;
  }

  // ----- nothing is lost -----

  function Flatten(items: seq<Item>): seq<string> {
    if items == [] then []
    else FlattenItem(items[0]) + Flatten(items[1..])
  }

  function FlattenItem(item: Item): seq<string> {
    match item
    case TextItem(s) => [s]
    case GroupItem(t) => FlattenTree(t)
  }

  function FlattenTree(t: Tree): seq<string> {
    Flatten(t.lines)
  }

  function Printed(ms: seq<Message>): seq<string> {
    if ms == [] then [] else (if ms[0].Print? then ms[0].lines else []) + Printed(ms[1..])
  }

  lemma {:induction false} FlattenConcat(a: seq<Item>, b: seq<Item>)
    ensures Flatten(a + b) == Flatten(a) + Flatten(b)
  {
    if a == [] {
      assert a + b == b;
    } else {
      assert (a + b)[1..] == a[1..] + b;
      FlattenConcat(a[1..], b);
    }
  }

  lemma {:induction false} FlattenTexts(lines: seq<string>)
    ensures Flatten(Texts(lines)) == lines
  {
    if lines != [] {
      FlattenTexts(lines[1..]);
      assert Texts(lines)[1..] == Texts(lines[1..]);
    }
  }

  lemma OpenPrints(t: Tree, items: seq<Item>, printed: seq<string>, middle: seq<string>, tail: seq<string>)
    requires printed == Flatten(t.lines) + middle && middle == Flatten(items) + tail
    ensures printed == Flatten([GroupItem(t)] + items) + tail
  {
    FlattenGroup(t, items);
  }

  lemma TextPrints(lines: seq<string>, items: seq<Item>, middle: seq<string>, tail: seq<string>)
    requires middle == Flatten(items) + tail
    ensures lines + middle == Flatten(Texts(lines) + items) + tail
  {
    FlattenTexts(lines);
    FlattenConcat(Texts(lines), items);
  }

  /** What a parse consumes is what its items and the remaining messages print. */
  lemma {:induction false} ParsePrints(ms: seq<Message>, top: bool)
    ensures Printed(ms) == Flatten(Parse(ms, top).items) + Printed(Parse(ms, top).rest)
    ensures top ==> Parse(ms, top).rest == []
    decreases |ms|
  {
    hide Flatten, Texts;
    FlattenNothing();
    if ms != [] {
      match ms[0]
      case Print(lines) =>
        var q := Parse(ms[1..], top);
        ParsePrints(ms[1..], top);
        TextPrints(lines, q.items, Printed(ms[1..]), Printed(q.rest));
      case Close(_) =>
        if top { ParsePrints(ms[1..], top); }
      case Open(name, collapse) =>
        var inner := Parse(ms[1..], false);
        var q := Parse(inner.rest, top);
        ParsePrints(ms[1..], false);
        ParsePrints(inner.rest, top);
        OpenPrints(Tree(name, collapse, inner.items, inner.result), q.items, Printed(ms[1..]), Printed(inner.rest),
                   Printed(q.rest));
    }
  }

  lemma FlattenNothing()
    ensures Flatten([]) == []
  {
  }

  lemma FlattenGroup(t: Tree, rest: seq<Item>)
    ensures Flatten([GroupItem(t)] + rest) == Flatten(t.lines) + Flatten(rest)
  {
    assert ([GroupItem(t)] + rest)[1..] == rest;
    assert FlattenItem(GroupItem(t)) == FlattenTree(t);
    assert FlattenTree(t) == Flatten(t.lines);
  }

  /** Main result: flattening the tree gives all the printed lines back, in order. */
  lemma NothingIsLost(ms: seq<Message>)
    ensures Flatten(Whole(Run([TOP], ms)).lines) == Printed(ms)
  {
    StackIsParse(ms);
    ParsePrints(ms, true);
  }

  // ----- the mutable groups -----

  datatype Line = Text(text: string) | Sub(group: Group)

  class Group {
    const name: string
    const collapse: bool
    var lines: seq<Line>
    var result: Option<string>

    constructor (name: string, collapse: bool)
      ensures this.name == name && this.collapse == collapse && lines == [] && result == None
    {
      this.name := name;
      this.collapse := collapse;
      lines := [];
      result := None;
    }
  }

  /** The lines stand for the items; the groups among them are closed ones. */
  predicate Matches(lines: seq<Line>, items: seq<Item>, closed: map<Group, Tree>) {
    && |lines| == |items|
    && forall i :: 0 <= i < |items| ==>
         match lines[i]
         case Text(s) => items[i] == TextItem(s)
         case Sub(g) => g in closed && items[i] == GroupItem(closed[g])
  }

  lemma MatchesMore(lines: seq<Line>, items: seq<Item>, moreLines: seq<Line>, more: seq<Item>,
                    closed: map<Group, Tree>, wider: map<Group, Tree>)
    requires Matches(lines, items, closed)
    requires Matches(moreLines, more, wider)
    requires forall g <- closed :: g in wider && wider[g] == closed[g]
    ensures Matches(lines + moreLines, items + more, wider)
  {
    forall i | 0 <= i < |items + more|
      ensures match (lines + moreLines)[i]
              case Text(s) => (items + more)[i] == TextItem(s)
              case Sub(g) => g in wider && (items + more)[i] == GroupItem(wider[g])
    {
      if i < |items| {
        assert lines[i] == (lines + moreLines)[i];
      } else {
        assert (lines + moreLines)[i] == moreLines[i - |items|];
      }
    }
  }

  lemma MatchesWider(lines: seq<Line>, items: seq<Item>, closed: map<Group, Tree>, g: Group, t: Tree)
    requires Matches(lines, items, closed) && g !in closed
    ensures Matches(lines, items, closed[g := t])
  {
    forall i | 0 <= i < |items|
      ensures match lines[i]
              case Text(s) => items[i] == TextItem(s)
              case Sub(k) => k in closed[g := t] && items[i] == GroupItem(closed[g := t][k])
    {
    }
  }

  /** The open child of a group becomes its last closed one. */
  lemma ClosedMatches(lines: seq<Line>, items: seq<Item>, closed: map<Group, Tree>, g: Group, t: Tree)
    requires Matches(lines, items, closed) && g !in closed
    ensures Matches(lines + [Sub(g)], items + [GroupItem(t)], closed[g := t])
  {
    MatchesMore(lines, items, [Sub(g)], [GroupItem(t)], closed, closed[g := t]);
  }

  function AsLines(lines: seq<string>): (r: seq<Line>)
    ensures |r| == |lines| && forall i :: 0 <= i < |lines| ==> r[i] == Text(lines[i])
  {
    if lines == [] then [] else [Text(lines[0])] + AsLines(lines[1..])
  }

  lemma {:induction false} TextsMatch(lines: seq<string>, closed: map<Group, Tree>)
    ensures Matches(AsLines(lines), Texts(lines), closed)
  {
    if lines != [] {
      TextsMatch(lines[1..], closed);
      forall i | 1 <= i < |lines| ensures Texts(lines)[i] == TextItem(lines[i]) {
        assert Texts(lines)[i] == Texts(lines[1..])[i - 1];
        assert AsLines(lines[1..])[i - 1] == Text(lines[1..][i - 1]);
      }
    }
  }

  /** The object graph from `g` down is the tree `t`. */
  ghost predicate Represents(g: Group, t: Tree, groups: set<Group>)
    reads groups
    decreases t
  {
    && g in groups && g.name == t.name && g.collapse == t.collapse && g.result == t.result
    && |g.lines| == |t.lines|
    && forall i :: 0 <= i < |t.lines| ==> LineRepresents(g.lines[i], t.lines[i], groups)
  }

  ghost predicate LineRepresents(line: Line, item: Item, groups: set<Group>)
    reads groups
    decreases item
  {
    match line
    case Text(s) => item == TextItem(s)
    case Sub(g) => item.GroupItem? && Represents(g, item.tree, groups)
  }

  /** Each open group but the innermost has its closed lines, and then the next open group. */
  ghost predicate Spine(stack: seq<Group>, frames: Frames, closed: map<Group, Tree>)
    reads stack
  {
    OuterSpine(stack, frames, closed) && Matches(Last(stack).lines, Last(frames).lines, closed)
  }

  ghost predicate OuterSpine(stack: seq<Group>, frames: Frames, closed: map<Group, Tree>)
    reads stack
  {
    && |stack| == |frames|
    && (forall i, j :: 0 <= i < j < |stack| ==> stack[i] != stack[j])
    && (forall i :: 0 <= i < |stack| ==>
          && stack[i] !in closed && stack[i].name == frames[i].name && stack[i].collapse == frames[i].collapse
          && stack[i].result == frames[i].result)
    && (forall i :: 0 <= i < |stack| - 1 ==> Opens(stack[i], stack[i + 1], frames[i].lines, closed))
  }

  ghost predicate Opens(g: Group, child: Group, items: seq<Item>, closed: map<Group, Tree>)
    reads g
  {
    |g.lines| == |items| + 1 && g.lines[|items|] == Sub(child) && Matches(g.lines[..|items|], items, closed)
  }

  /** Every closed group stands for its tree. */
  ghost predicate AllClosed(closed: map<Group, Tree>)
    reads closed.Keys
  {
    forall g <- closed ::
      && g.name == closed[g].name && g.collapse == closed[g].collapse && g.result == closed[g].result
      && Matches(g.lines, closed[g].lines, closed)
  }

  /** A new group that is the innermost group's last line is the new innermost group. */
  lemma PushSpine(stack: seq<Group>, frames: Frames, closed: map<Group, Tree>, g: Group)
    requires OuterSpine(stack, frames, closed)
    requires Opens(Last(stack), g, Last(frames).lines, closed)
    requires g !in stack && g !in closed && g.lines == [] && g.result == None
    ensures Spine(stack + [g], frames + [Tree(g.name, g.collapse, [], None)], closed)
  {
    hide Opens;
    var n := |stack|;
    assert forall i :: 0 <= i < n ==> (stack + [g])[i] == stack[i];
    assert Opens(stack[n - 1], (stack + [g])[n], frames[n - 1].lines, closed);
  }

  /** Popping the innermost group makes it its parent's last closed line. */
  lemma PopSpine(stack: seq<Group>, frames: Frames, closed: map<Group, Tree>)
    requires |stack| > 1 && Spine(stack, frames, closed) && AllClosed(closed)
    ensures Spine(Front(stack), AddTo(Front(frames), [GroupItem(Last(frames))]), closed[Last(stack) := Last(frames)])
    ensures AllClosed(closed[Last(stack) := Last(frames)])
  {
    hide Matches;
    var g, t := Last(stack), Last(frames);
    var n := |stack| - 2;
    var wider := closed[g := t];
    assert Opens(stack[n], stack[n + 1], frames[n].lines, closed);
    assert stack[n].lines == stack[n].lines[..|frames[n].lines|] + [Sub(g)];
    ClosedMatches(stack[n].lines[..|frames[n].lines|], frames[n].lines, closed, g, t);
    forall i | 0 <= i < n ensures Opens(stack[i], stack[i + 1], frames[i].lines, wider) {
      assert Opens(stack[i], stack[i + 1], frames[i].lines, closed);
      MatchesWider(stack[i].lines[..|frames[i].lines|], frames[i].lines, closed, g, t);
    }
    MatchesWider(g.lines, t.lines, closed, g, t);
    forall k <- closed ensures Matches(k.lines, closed[k].lines, wider) {
      MatchesWider(k.lines, closed[k].lines, closed, g, t);
    }
  }

  lemma {:induction false} ClosedRepresents(g: Group, closed: map<Group, Tree>, groups: set<Group>)
    requires AllClosed(closed) && g in closed && closed.Keys <= groups
    ensures Represents(g, closed[g], groups)
    decreases closed[g]
  {
    var t := closed[g];
    assert Matches(g.lines, t.lines, closed);
    forall i | 0 <= i < |t.lines| ensures LineRepresents(g.lines[i], t.lines[i], groups) {
      MatchedRepresents(g.lines[i], t.lines[i], closed, groups);
    }
  }

  lemma {:induction false} MatchedRepresents(line: Line, item: Item, closed: map<Group, Tree>, groups: set<Group>)
    requires AllClosed(closed) && closed.Keys <= groups
    requires match line case Text(s) => item == TextItem(s) case Sub(k) => k in closed && item == GroupItem(closed[k])
    ensures LineRepresents(line, item, groups)
    decreases item
  {
    match line
    case Text(_) =>
    case Sub(k) => ClosedRepresents(k, closed, groups);
  }

  /** The objects reachable from the bottom of the stack are the whole tree, open spine included. */
  lemma {:induction false} SpineRepresents(stack: seq<Group>, frames: Frames, closed: map<Group, Tree>, groups: set<Group>)
    requires Spine(stack, frames, closed) && AllClosed(closed)
    requires closed.Keys <= groups && forall g <- stack :: g in groups
    ensures Represents(stack[0], Whole(frames), groups)
    decreases |stack|
  {
    if |stack| == 1 {
      var t := frames[0];
      forall i | 0 <= i < |t.lines| ensures LineRepresents(stack[0].lines[i], t.lines[i], groups) {
        MatchedRepresents(stack[0].lines[i], t.lines[i], closed, groups);
      }
    } else {
      hide Spine, AllClosed, Represents;
      PopSpine(stack, frames, closed);
      SpineRepresents(Front(stack), AddTo(Front(frames), [GroupItem(Last(frames))]), closed[Last(stack) := Last(frames)],
                      groups);
    }
  }

  class Logger {
    var groupStack: seq<Group>
    // The open groups as values, and the tree of every closed group.
    ghost var frames: Frames
    ghost var closed: map<Group, Tree>

    /** The stack is the rightmost open spine: every open group is the last line of its parent. */
    ghost predicate Valid()
      reads this, groupStack, closed.Keys
    {
      |groupStack| == |frames| && Spine(groupStack, frames, closed) && AllClosed(closed)
    }

    constructor ()
      ensures Valid() && frames == [TOP]
      ensures fresh(groupStack) && fresh(closed.Keys)
    {
      var top := new Group("", false);
      groupStack := [top];
      frames := [TOP];
      closed := map[];
    }

    /** `logPrint`. */
    method LogPrint(message: string)
      requires Valid()
      modifies this, groupStack
      ensures Valid() && frames == Step(old(frames), Classify(message))
      ensures forall i :: 0 <= i < |groupStack| ==> groupStack[i] in old(groupStack) || fresh(groupStack[i])
      ensures forall g <- closed :: g in old(closed) || g in old(groupStack)
    {
      match Classify(message) {
        case Open(name, collapse) => OpenGroup(name, collapse);
        case Close(result) => CloseGroup(result);
        case Print(lines) => PrintLines(lines);
      }
    }

    method OpenGroup(name: string, collapse: bool)
      requires Valid()
      modifies this, Last(groupStack)
      ensures Valid() && frames == Step(old(frames), Open(name, collapse))
      ensures |groupStack| == |old(groupStack)| + 1 && Front(groupStack) == old(groupStack) && fresh(Last(groupStack))
      ensures closed == old(closed)
    {
      hide OuterSpine, Spine, AllClosed, Opens;
      var nextGroup := new Group(name, collapse);
      AppendChild(nextGroup);
      PushSpine(groupStack, frames, closed, nextGroup);
      groupStack := groupStack + [nextGroup];
      frames := frames + [Tree(name, collapse, [], None)];
    }

    /** The new group becomes the innermost group's last line. */
    method AppendChild(g: Group)
      requires Valid() && g !in groupStack && g !in closed
      modifies Last(groupStack)
      ensures OuterSpine(groupStack, frames, closed) && AllClosed(closed)
      ensures Opens(Last(groupStack), g, Last(frames).lines, closed)
    {
      var current := Last(groupStack);
      current.lines := current.lines + [Sub(g)];
      assert current.lines[..|current.lines| - 1] == old(current.lines);
      assert forall i :: 0 <= i < |groupStack| - 1 ==> Opens(groupStack[i], groupStack[i + 1], frames[i].lines, closed);
    }

    /** Records the result of the innermost group, still open. */
    method SetResult(result: string)
      requires Valid()
      modifies Last(groupStack)
      ensures Last(groupStack).lines == old(Last(groupStack).lines)
      ensures Spine(groupStack, Front(frames) + [Last(frames).(result := Some(result))], closed) && AllClosed(closed)
    {
      var current := Last(groupStack);
      current.result := Some(result);
      assert AllClosed(closed);
      assert forall i :: 0 <= i < |groupStack| - 1 ==> Opens(groupStack[i], groupStack[i + 1], frames[i].lines, closed);
    }

    /** A surplus close is ignored. */
    method CloseGroup(result: string)
      requires Valid()
      modifies this, Last(groupStack)
      ensures Valid() && frames == Step(old(frames), Close(result))
      ensures if |old(groupStack)| == 1 then groupStack == old(groupStack) && closed == old(closed)
              else groupStack == Front(old(groupStack)) && closed.Keys == old(closed.Keys) + {Last(old(groupStack))}
    {
      if |groupStack| == 1 {
        return;
      }
      ghost var next := Front(frames) + [Last(frames).(result := Some(result))];
      assert Front(next) == Front(frames);
      SetResult(result);
      hide Spine, AllClosed, Matches, AddTo;
      PopGroup(next);
    }

    /** `groupStack.pop()`. */
    method PopGroup(ghost next: Frames)
      requires |groupStack| == |next| > 1 && Spine(groupStack, next, closed) && AllClosed(closed)
      modifies this
      ensures Valid() && frames == AddTo(Front(next), [GroupItem(Last(next))])
      ensures groupStack == Front(old(groupStack))
      ensures closed.Keys == old(closed.Keys) + {Last(old(groupStack))}
    {
      hide Spine, AllClosed;
      PopSpine(groupStack, next, closed);
      closed := closed[Last(groupStack) := Last(next)];
      groupStack := Front(groupStack);
      frames := AddTo(Front(next), [GroupItem(Last(next))]);
    }

    method PrintLines(lines: seq<string>)
      requires Valid()
      modifies this, Last(groupStack)
      ensures Valid() && frames == Step(old(frames), Print(lines))
      ensures groupStack == old(groupStack) && closed == old(closed)
    {
      var current := Last(groupStack);
      TextsMatch(lines, closed);
      MatchesMore(current.lines, Last(frames).lines, AsLines(lines), Texts(lines), closed, closed);
      current.lines := current.lines + AsLines(lines);
      frames := AddTo(frames, Texts(lines));
    }
  }

  function ClassifyAll(messages: seq<string>): (ms: seq<Message>)
    ensures |ms| == |messages|
  {
    if messages == [] then [] else [Classify(messages[0])] + ClassifyAll(messages[1..])
  }

  /** Logs the messages one after another. */
  method Replay(messages: seq<string>) returns (logger: Logger)
    ensures fresh(logger) && logger.Valid()
    ensures logger.frames == Run([TOP], ClassifyAll(messages))
  {
    hide Spine, AllClosed, Classify, Step;
    logger := new Logger();
    var todo := messages;
    while todo != []
      invariant fresh(logger) && logger.Valid()
      invariant fresh(logger.groupStack)
      invariant Run([TOP], ClassifyAll(messages)) == Run(logger.frames, ClassifyAll(todo))
      decreases |todo|
    {
      logger.LogPrint(todo[0]);
      assert ClassifyAll(todo)[1..] == ClassifyAll(todo[1..]);
      todo := todo[1..];
    }
  }

  /** Main result: replaying the messages through the mutable stack leaves, under the bottom group,
      an object graph that is the tree of the recursive parse; and that tree has lost no line. */
  lemma ReplayedIsParsed(logger: Logger, messages: seq<string>)
    requires logger.Valid() && logger.frames == Run([TOP], ClassifyAll(messages))
    ensures var tree := TOP.(lines := Parse(ClassifyAll(messages), true).items);
            && Represents(logger.groupStack[0], tree, logger.closed.Keys + set g <- logger.groupStack)
            && Flatten(tree.lines) == Printed(ClassifyAll(messages))
  {
    hide Spine, AllClosed, Represents, Run, Parse, Whole, Flatten;
    StackIsParse(ClassifyAll(messages));
    NothingIsLost(ClassifyAll(messages));
    SpineRepresents(logger.groupStack, logger.frames, logger.closed, logger.closed.Keys + set g <- logger.groupStack);
  }
}
