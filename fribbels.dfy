/** The session aggregator that builds an export document in the format of the
    Fribbels HSR Optimizer: it reads decoded game commands one at a time, keeps
    the account identifier, and collects the achievement and book identifiers
    that the reference database knows. */
module Fribbels {

  import opened Wrappers
  import opened Proto

  /** The fixed `source` tag of every export document. */
  const SOURCE: string := "completionist_archiver"

  /** The crate version baked in at build time; its value is not modelled. */
  const BUILD: string

  /** The fixed schema version of every export document. */
  const EXPORT_VERSION: u32 := 3

  datatype Metadata = Metadata(uid: Option<u32>)

  /** The export document. */
  datatype Export = ExportDocument(
    source: string,
    build: string,
    version: u32,
    metadata: Metadata,
    achievements: seq<u32>,
    books: seq<u32>)

  datatype Achievement = Achievement(id: u32)

  datatype Book = Book(id: u32)

  /** The reference data: the known achievement ids, the known book ids, and
      the per-account key table, which the aggregator never reads. */
  datatype Database = Database(
    achievementList: seq<u32>,
    bookList: seq<u32>,
    keys: map<u32, seq<u8>>)

  // ---------------------------------------------------------------------------
  // Validators
  // ---------------------------------------------------------------------------

  /** A quest accepted as an achievement has one of the two terminal statuses. */
  predicate IsTerminal(status: QuestStatus)
  {
    status == QuestClose || status == QuestFinish
  }

  /** `export_proto_achievement`. The status is unwrapped, so a quest whose
      status is not a known enumeration value is outside its domain. */
  function ExportProtoAchievement(db: Database, proto: Quest): (r: Option<Achievement>)
    requires proto.status.Known?
    ensures r.Some? <==> IsTerminal(proto.status.value) && proto.id in db.achievementList
    ensures r.Some? ==> r.value.id == proto.id
  {
    if (proto.status.Unwrap() == QuestClose || proto.status.Unwrap() == QuestFinish)
       && proto.id in db.achievementList
    then Some(Achievement(proto.id))
    else None
  }

  /** `export_proto_book`. */
  function ExportProtoBook(db: Database, proto: Material): (r: Option<Book>)
    ensures r.Some? <==> proto.tid in db.bookList
    ensures r.Some? ==> r.value.id == proto.tid
  {
    if proto.tid in db.bookList then Some(Book(proto.tid)) else None
  }

  // ---------------------------------------------------------------------------
  // The filter pipelines of the two adders
  // ---------------------------------------------------------------------------

  /** Every quest of the list has a known status, so unwrapping never panics. */
  predicate StatusesKnown(quests: seq<Quest>)
  {
    forall i :: 0 <= i < |quests| ==> quests[i].status.Known?
  }

  /** The ids of the books `export_proto_book` accepts from `materials`, in
      order: the filter_map, collect and map of `add_inventory`. */
  function AcceptedBooks(db: Database, materials: seq<Material>): (ids: seq<u32>)
    ensures |ids| <= |materials|
  {
    if materials == [] then []
    else
      var rest := AcceptedBooks(db, materials[1..]);
      match ExportProtoBook(db, materials[0])
      case Some(book) => [book.id] + rest
      case None => rest
  }

  /** The ids of the achievements `export_proto_achievement` accepts from
      `quests`, in order: the pipeline of `add_achievements`. */
  function AcceptedAchievements(db: Database, quests: seq<Quest>): (ids: seq<u32>)
    requires StatusesKnown(quests)
    ensures |ids| <= |quests|
  {
    if quests == [] then []
    else
      var rest := AcceptedAchievements(db, quests[1..]);
      match ExportProtoAchievement(db, quests[0])
      case Some(achievement) => [achievement.id] + rest
      case None => rest
  }

  /** How many materials of the list have item type `tid`. */
  function TidCount(materials: seq<Material>, tid: u32): (n: nat)
  {
    if materials == [] then 0
    else (if materials[0].tid == tid then 1 else 0) + TidCount(materials[1..], tid)
  }

  /** How many quests of the list have id `id` and a terminal status. */
  function TerminalCount(quests: seq<Quest>, id: u32): (n: nat)
    requires StatusesKnown(quests)
  {
    if quests == [] then 0
    else
      (if quests[0].id == id && IsTerminal(quests[0].status.value) then 1 else 0)
      + TerminalCount(quests[1..], id)
  }

  /** Filtering a concatenation is concatenating the filtered parts, so the
      accepted ids keep the order of the materials. */
  lemma {:induction false} AcceptedBooksAppend(db: Database, a: seq<Material>, b: seq<Material>)
    ensures AcceptedBooks(db, a + b) == AcceptedBooks(db, a) + AcceptedBooks(db, b)
  {
    if a == [] {
      assert a + b == b;
    } else {
      assert (a + b)[0] == a[0];
      assert (a + b)[1..] == a[1..] + b;
      AcceptedBooksAppend(db, a[1..], b);
    }
  }

  /** An id is accepted exactly when it is a known book and some material of
      the list has it as item type. */
  lemma {:induction false} AcceptedBooksMembers(db: Database, materials: seq<Material>)
    ensures forall x :: x in AcceptedBooks(db, materials) <==>
      x in db.bookList && exists i :: 0 <= i < |materials| && materials[i].tid == x
  {
    if materials != [] {
      AcceptedBooksMembers(db, materials[1..]);
      forall x | x in db.bookList && (exists i :: 0 <= i < |materials| && materials[i].tid == x)
        ensures x in AcceptedBooks(db, materials)
      {
        var i :| 0 <= i < |materials| && materials[i].tid == x;
        if i > 0 {
          assert materials[1..][i - 1].tid == x;
        }
      }
    }
  }

  /** No deduplication: a known book id is accepted once per material that has
      it, and an unknown one never. */
  lemma {:induction false} AcceptedBooksCount(db: Database, materials: seq<Material>, tid: u32)
    ensures multiset(AcceptedBooks(db, materials))[tid]
      == if tid in db.bookList then TidCount(materials, tid) else 0
  {
    if materials != [] {
      AcceptedBooksCount(db, materials[1..], tid);
    }
  }

  /** When every material is a known book, nothing is dropped and the order is
      that of the list. */
  lemma {:induction false} AcceptedBooksAllKnown(db: Database, materials: seq<Material>)
    requires forall i :: 0 <= i < |materials| ==> materials[i].tid in db.bookList
    ensures |AcceptedBooks(db, materials)| == |materials|
    ensures forall i :: 0 <= i < |materials| ==> AcceptedBooks(db, materials)[i] == materials[i].tid
  {
    if materials != [] {
      AcceptedBooksAllKnown(db, materials[1..]);
    }
  }

  lemma {:induction false} AcceptedAchievementsAppend(db: Database, a: seq<Quest>, b: seq<Quest>)
    requires StatusesKnown(a) && StatusesKnown(b)
    ensures StatusesKnown(a + b)
    ensures AcceptedAchievements(db, a + b)
      == AcceptedAchievements(db, a) + AcceptedAchievements(db, b)
  {
    assert forall i :: 0 <= i < |a + b| ==> (a + b)[i] == if i < |a| then a[i] else b[i - |a|];
    if a == [] {
      assert a + b == b;
    } else {
      assert (a + b)[0] == a[0];
      assert (a + b)[1..] == a[1..] + b;
      AcceptedAchievementsAppend(db, a[1..], b);
    }
  }

  /** An id is accepted exactly when it is a known achievement and some quest
      of the list has that id and a terminal status. */
  lemma {:induction false} AcceptedAchievementsMembers(db: Database, quests: seq<Quest>)
    requires StatusesKnown(quests)
    ensures forall x :: x in AcceptedAchievements(db, quests) <==>
      x in db.achievementList
      && exists i :: 0 <= i < |quests| && quests[i].id == x && IsTerminal(quests[i].status.value)
  {
    if quests != [] {
      AcceptedAchievementsMembers(db, quests[1..]);
      forall x | x in db.achievementList
          && (exists i :: 0 <= i < |quests| && quests[i].id == x && IsTerminal(quests[i].status.value))
        ensures x in AcceptedAchievements(db, quests)
      {
        var i :| 0 <= i < |quests| && quests[i].id == x && IsTerminal(quests[i].status.value);
        if i > 0 {
          assert quests[1..][i - 1] == quests[i];
        }
      }
    }
  }

  /** No deduplication: a known achievement id is accepted once per terminal
      quest that has it, and an unknown one never. */
  lemma {:induction false} AcceptedAchievementsCount(db: Database, quests: seq<Quest>, id: u32)
    requires StatusesKnown(quests)
    ensures multiset(AcceptedAchievements(db, quests))[id]
      == if id in db.achievementList then TerminalCount(quests, id) else 0
  {
    if quests != [] {
      AcceptedAchievementsCount(db, quests[1..], id);
    }
  }

  /** When every quest is a terminal, known achievement, nothing is dropped and
      the order is that of the list. */
  lemma {:induction false} AcceptedAchievementsAllKnown(db: Database, quests: seq<Quest>)
    requires StatusesKnown(quests)
    requires forall i :: 0 <= i < |quests| ==>
      IsTerminal(quests[i].status.value) && quests[i].id in db.achievementList
    ensures |AcceptedAchievements(db, quests)| == |quests|
    ensures forall i :: 0 <= i < |quests| ==> AcceptedAchievements(db, quests)[i] == quests[i].id
  {
    if quests != [] {
      AcceptedAchievementsAllKnown(db, quests[1..]);
    }
  }

  // ---------------------------------------------------------------------------
  // The accumulated state as a value, and the meaning of reading one command
  // ---------------------------------------------------------------------------

  /** The three fields of the aggregator that change. */
  datatype Session = Session(uid: Option<u32>, achievements: seq<u32>, books: seq<u32>)

  /** The session before any command was read. */
  const INITIAL: Session := Session(None, [], [])

  /** Every collected id is one the reference database knows. */
  ghost predicate Consistent(db: Database, s: Session)
  {
    && (forall a :: a in s.achievements ==> a in db.achievementList)
    && (forall b :: b in s.books ==> b in db.bookList)
  }

  /** `is_finished`: the uid is set and both lists are non-empty. */
  predicate Ready(s: Session)
  {
    s.uid.Some? && s.achievements != [] && s.books != []
  }

  /** Reading the command does not reach the `unwrap` that panics. */
  predicate CanRead(command: GameCommand)
  {
    command.QuestDataCommand? && command.questData.Parsed? ==>
      StatusesKnown(command.questData.msg.questList)
  }

  /** The command is dropped: an unrecognised id or a payload that does not parse. */
  predicate IsIgnored(command: GameCommand)
  {
    match command
    case TokenCommand(p) => p.ParseError?
    case BagCommand(p) => p.ParseError?
    case QuestDataCommand(p) => p.ParseError?
    case OtherCommand(_) => true
  }

  /** The effect of `read_command` on the session. */
  function Step(db: Database, s: Session, command: GameCommand): (next: Session)
    requires CanRead(command)
    ensures s.achievements <= next.achievements && s.books <= next.books
    ensures s.uid.Some? ==> next.uid.Some?
    ensures IsIgnored(command) ==> next == s
    ensures Ready(s) ==> Ready(next)
  {
    match command
    case TokenCommand(p) =>
      if p.Parsed? then s.(uid := Some(p.msg.uid)) else s
    case BagCommand(p) =>
      if p.Parsed? then s.(books := s.books + AcceptedBooks(db, p.msg.materialList)) else s
    case QuestDataCommand(p) =>
      if p.Parsed? then s.(achievements := s.achievements + AcceptedAchievements(db, p.msg.questList))
      else s
    case OtherCommand(_) => s
  }

  /** Reading one command keeps every collected id known to the database. */
  lemma StepConsistent(db: Database, s: Session, command: GameCommand)
    requires CanRead(command)
    requires Consistent(db, s)
    ensures Consistent(db, Step(db, s, command))
  {
    match command
    case BagCommand(p) =>
      if p.Parsed? {
        AcceptedBooksMembers(db, p.msg.materialList);
      }
    case QuestDataCommand(p) =>
      if p.Parsed? {
        AcceptedAchievementsMembers(db, p.msg.questList);
      }
    case TokenCommand(_) =>
    case OtherCommand(_) =>
  }

  // ---------------------------------------------------------------------------
  // The aggregator
  // ---------------------------------------------------------------------------

  /** `OptimizerExporter`. The ghost flag `exported` records that `export`,
      which consumes the aggregator, has been called. */
  class OptimizerExporter {
    const database: Database
    var uid: Option<u32>
    var achievements: seq<u32>
    var books: seq<u32>
    ghost var exported: bool

    /** The changing fields as a value. */
    function State(): (s: Session)
      reads this
    {
      Session(uid, achievements, books)
    }

    /** The invariant kept from construction on. */
    ghost predicate Valid()
      reads this
    {
      Consistent(database, State())
    }

    /** `new`. */
    constructor (database: Database)
      ensures this.database == database
      ensures State() == INITIAL
      ensures !exported && Valid()
    {
      this.database := database;
      uid := None;
      achievements := [];
      books := [];
      exported := false;
    }

    /** `set_uid`: the last uid written wins. */
    method SetUid(uid: u32)
      requires !exported
      modifies this
      ensures this.uid == Some(uid)
      ensures achievements == old(achievements) && books == old(books)
      ensures !exported
      ensures old(Valid()) ==> Valid()
    {
      this.uid := Some(uid);
    }

    /** `add_inventory`: appends the accepted book ids of the bag, in order. */
    method AddInventory(bag: GetBagScRsp)
      requires !exported
      modifies this
      ensures books == old(books) + AcceptedBooks(database, bag.materialList)
      ensures uid == old(uid) && achievements == old(achievements)
      ensures !exported
      ensures old(Valid()) ==> Valid()
    {
      var ids := AcceptedBooks(database, bag.materialList);
      AcceptedBooksMembers(database, bag.materialList);
      books := books + ids;
    }

    /** `add_achievements`: appends the accepted achievement ids of the quest
        list, in order. */
    method AddAchievements(quest: GetQuestDataScRsp)
      requires !exported
      requires StatusesKnown(quest.questList)
      modifies this
      ensures achievements == old(achievements) + AcceptedAchievements(database, quest.questList)
      ensures uid == old(uid) && books == old(books)
      ensures !exported
      ensures old(Valid()) ==> Valid()
    {
      var ids := AcceptedAchievements(database, quest.questList);
      AcceptedAchievementsMembers(database, quest.questList);
      achievements := achievements + ids;
    }

    /** `read_command`: dispatches on the command id. */
    method ReadCommand(command: GameCommand)
      requires !exported
      requires CanRead(command)
      modifies this
      ensures State() == Step(database, old(State()), command)
      ensures IsIgnored(command) ==> State() == old(State())
      ensures !exported
      ensures old(Valid()) ==> Valid()
    {
      match command
      case TokenCommand(p) =>
        match p {
          case Parsed(cmd) => SetUid(cmd.uid);
          case ParseError =>
        }
      case BagCommand(p) =>
        match p {
          case Parsed(cmd) => AddInventory(cmd);
          case ParseError =>
        }
      case QuestDataCommand(p) =>
        match p {
          case Parsed(cmd) => AddAchievements(cmd);
          case ParseError =>
        }
      case OtherCommand(_) =>
    }

    /** `is_finished`. */
    function IsFinished(): (r: bool)
      reads this
      ensures r <==> uid.Some? && |achievements| > 0 && |books| > 0
    {
      Ready(State())
    }

    /** `export`: always succeeds, whatever the readiness, and consumes the
        aggregator. */
    method Export() returns (doc: Export)
      requires !exported
      modifies this
      ensures exported
      ensures State() == old(State())
      ensures doc.source == SOURCE && doc.build == BUILD && doc.version == 3
      ensures doc.metadata.uid == old(uid)
      ensures doc.achievements == old(achievements) && doc.books == old(books)
      ensures old(Valid()) ==>
        && (forall a :: a in doc.achievements ==> a in database.achievementList)
        && (forall b :: b in doc.books ==> b in database.bookList)
    {
      doc := ExportDocument(SOURCE, BUILD, EXPORT_VERSION, Metadata(uid), achievements, books);
      exported := true;
    }
  }
}
