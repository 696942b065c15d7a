/** Properties of a whole stream of commands read by one aggregator, and the
    session scenario worked through on the class itself. */
module FribbelsProperties {

  import opened Wrappers
  import opened Proto
  import opened Fribbels

  /** Every command of the stream can be read without a panic. */
  predicate AllReadable(commands: seq<GameCommand>)
  {
    forall i :: 0 <= i < |commands| ==> CanRead(commands[i])
  }

  /** The session after reading `commands` in arrival order from `s`. */
  function Feed(db: Database, s: Session, commands: seq<GameCommand>): (last: Session)
    requires AllReadable(commands)
    decreases |commands|
  {
    if commands == [] then s
    else Feed(db, Step(db, s, commands[0]), commands[1..])
  }

  /** The command sets the uid: a token command whose payload parses. */
  predicate SetsUid(command: GameCommand)
  {
    command.TokenCommand? && command.token.Parsed?
  }

  /** Reading `a` then `b` is reading `a + b`. */
  lemma {:induction false} FeedSplit(db: Database, s: Session, a: seq<GameCommand>, b: seq<GameCommand>)
    requires AllReadable(a) && AllReadable(b)
    ensures AllReadable(a + b)
    ensures Feed(db, s, a + b) == Feed(db, Feed(db, s, a), b)
    decreases |a|
  {
    assert forall i :: 0 <= i < |a + b| ==> (a + b)[i] == if i < |a| then a[i] else b[i - |a|];
    if a == [] {
      assert a + b == b;
    } else {
      assert (a + b)[0] == a[0];
      assert (a + b)[1..] == a[1..] + b;
      FeedSplit(db, Step(db, s, a[0]), a[1..], b);
    }
  }

  /** From `new` on, every collected id is one the reference database knows. */
  lemma {:induction false} FeedConsistent(db: Database, s: Session, commands: seq<GameCommand>)
    requires AllReadable(commands)
    requires Consistent(db, s)
    ensures Consistent(db, Feed(db, s, commands))
    decreases |commands|
  {
    if commands != [] {
      StepConsistent(db, s, commands[0]);
      FeedConsistent(db, Step(db, s, commands[0]), commands[1..]);
    }
  }

  /** A stream of dropped commands leaves the session exactly as it was. */
  lemma {:induction false} FeedIgnored(db: Database, s: Session, commands: seq<GameCommand>)
    requires AllReadable(commands)
    requires forall i :: 0 <= i < |commands| ==> IsIgnored(commands[i])
    ensures Feed(db, s, commands) == s
    decreases |commands|
  {
    if commands != [] {
      assert IsIgnored(commands[0]);
      FeedIgnored(db, s, commands[1..]);
    }
  }

  /** The lists only grow at their end, and a uid once set stays set. */
  lemma {:induction false} FeedGrows(db: Database, s: Session, commands: seq<GameCommand>)
    requires AllReadable(commands)
    ensures |s.achievements| <= |Feed(db, s, commands).achievements|
    ensures Feed(db, s, commands).achievements[..|s.achievements|] == s.achievements
    ensures |s.books| <= |Feed(db, s, commands).books|
    ensures Feed(db, s, commands).books[..|s.books|] == s.books
    ensures s.uid.Some? ==> Feed(db, s, commands).uid.Some?
    decreases |commands|
  {
    if commands != [] {
      var t := Step(db, s, commands[0]);
      assert t.achievements[..|s.achievements|] == s.achievements;
      assert t.books[..|s.books|] == s.books;
      FeedGrows(db, t, commands[1..]);
      var r := Feed(db, t, commands[1..]);
      assert r.achievements[..|s.achievements|] == r.achievements[..|t.achievements|][..|s.achievements|];
      assert r.books[..|s.books|] == r.books[..|t.books|][..|s.books|];
    }
  }

  /** Readiness is not a phase change: once ready, reading more commands keeps
      the aggregator ready. */
  lemma FeedKeepsReady(db: Database, s: Session, commands: seq<GameCommand>)
    requires AllReadable(commands)
    requires Ready(s)
    ensures Ready(Feed(db, s, commands))
  {
    FeedGrows(db, s, commands);
  }

  /** Commands that do not set the uid leave it as it was. */
  lemma {:induction false} FeedKeepsUid(db: Database, s: Session, commands: seq<GameCommand>)
    requires AllReadable(commands)
    requires forall i :: 0 <= i < |commands| ==> !SetsUid(commands[i])
    ensures Feed(db, s, commands).uid == s.uid
    decreases |commands|
  {
    if commands != [] {
      assert !SetsUid(commands[0]);
      FeedKeepsUid(db, Step(db, s, commands[0]), commands[1..]);
    }
  }

  /** Last write wins: the uid is that of the last token command that parsed. */
  lemma LastUidWins(
    db: Database, s: Session,
    before: seq<GameCommand>, token: PlayerGetTokenScRsp, after: seq<GameCommand>)
    requires AllReadable(before) && AllReadable(after)
    requires forall i :: 0 <= i < |after| ==> !SetsUid(after[i])
    ensures AllReadable(before + [TokenCommand(Parsed(token))] + after)
    ensures Feed(db, s, before + [TokenCommand(Parsed(token))] + after).uid == Some(token.uid)
  {
    var last := [TokenCommand(Parsed(token))];
    FeedSplit(db, s, before, last);
    FeedSplit(db, s, before + last, after);
    FeedKeepsUid(db, Feed(db, s, before + last), after);
  }

  /** No deduplication: reading the same bag twice counts each of its known
      books twice more than before. */
  lemma BagTwiceCountsTwice(db: Database, s: Session, bag: GetBagScRsp, tid: u32)
    ensures multiset(Feed(db, s, [BagCommand(Parsed(bag)), BagCommand(Parsed(bag))]).books)[tid]
      == multiset(s.books)[tid]
         + 2 * (if tid in db.bookList then TidCount(bag.materialList, tid) else 0)
  {
    var c := BagCommand(Parsed(bag));
    var found := AcceptedBooks(db, bag.materialList);
    assert [c, c][1..] == [c];
    assert Feed(db, s, [c, c]) == Feed(db, Step(db, s, c), [c]);
    assert Feed(db, s, [c, c]).books == s.books + found + found;
    AcceptedBooksCount(db, bag.materialList, tid);
  }

  /** No deduplication: reading the same quest data twice counts each of its
      accepted achievements twice more than before. */
  lemma QuestDataTwiceCountsTwice(db: Database, s: Session, quest: GetQuestDataScRsp, id: u32)
    requires StatusesKnown(quest.questList)
    ensures AllReadable([QuestDataCommand(Parsed(quest)), QuestDataCommand(Parsed(quest))])
    ensures multiset(Feed(db, s, [QuestDataCommand(Parsed(quest)), QuestDataCommand(Parsed(quest))])
        .achievements)[id]
      == multiset(s.achievements)[id]
         + 2 * (if id in db.achievementList then TerminalCount(quest.questList, id) else 0)
  {
    var c := QuestDataCommand(Parsed(quest));
    var found := AcceptedAchievements(db, quest.questList);
    assert [c, c][1..] == [c];
    var once := Step(db, s, c);
    assert once.achievements == s.achievements + found;
    assert Feed(db, s, [c, c]) == Feed(db, once, [c]) == Step(db, once, c);
    assert Feed(db, s, [c, c]).achievements == s.achievements + found + found;
    AcceptedAchievementsCount(db, quest.questList, id);
  }

  /** The session that reference data {100, 200} and {55} and the commands below
      produce: a token for 123456, quest 100 finished, quest 300 finished (an
      unknown achievement), and a bag holding item 55. */
  method Scenario() returns (ready: bool, doc: Export)
    ensures ready
    ensures doc == ExportDocument(SOURCE, BUILD, 3, Metadata(Some(123456)), [100], [55])
  {
    var db := Database([100, 200], [55], map[]);
    var exporter := new OptimizerExporter(db);
    exporter.ReadCommand(TokenCommand(Parsed(PlayerGetTokenScRsp(123456))));
    exporter.ReadCommand(QuestDataCommand(Parsed(GetQuestDataScRsp([Quest(100, Known(QuestFinish))]))));
    assert exporter.achievements == [100];
    exporter.ReadCommand(QuestDataCommand(Parsed(GetQuestDataScRsp([Quest(300, Known(QuestFinish))]))));
    assert exporter.achievements == [100];
    exporter.ReadCommand(BagCommand(Parsed(GetBagScRsp([Material(55)]))));
    assert exporter.books == [55];
    ready := exporter.IsFinished();
    doc := exporter.Export();
  }
}
