# completionist-archiver: the Fribbels export aggregator

This project models the session aggregator of completionist-archiver, in
`src/export/fribbels.rs`. The aggregator reads decoded game commands one at a
time and builds an export document in the format of the Fribbels HSR
Optimizer:

- A token command sets the account uid. The last write wins.
- A bag (inventory) command adds the item types that the reference database
  knows as books.
- A quest data command adds the quest ids that the reference database knows
  as achievements, but only for quests whose status is closed or finished.
- Every other command is ignored. A command whose payload does not parse is
  dropped.

Accepted ids are appended in arrival order and duplicates are kept.
`is_finished` reports readiness. `export` consumes the aggregator and always
returns the document, with fixed `source` and `version` fields.

Files:

- `wrappers.dfy`: `Option`.
- `proto.dfy`: the shapes of the decoded messages the aggregator reads. These
  messages come from the external reliquary library. The module also holds
  the `u32` and `u8` widths and the protobuf enum field `EnumOrUnknown`.
- `fribbels.dfy`: the export records, the reference `Database`, the two
  validators, and the filter pipelines of the two adders with their lemmas.
  It also holds `Session` (the three changing fields, as a value), `Step`
  (what `read_command` does to a `Session`), and the class
  `OptimizerExporter`. Each state-changing method of the class is proved
  against these functions.
- `fribbels_properties.dfy`: `Feed`, which reads a stream of commands in
  order, with lemmas about whole streams. It also holds a client method that
  works through a complete session on the class.

Each class method states its whole new state in terms of the old one. The
invariant `Valid()` says that every collected id is in the matching reference
list. The constructor establishes it and every method keeps it. A ghost flag
`exported` stands for Rust's move of `self` into `export`. Every method
requires the flag to be false, and `Export` sets it.

Three behaviours of the code that the model keeps:

- The reference data are `Vec`s searched with `contains`
  (src/export/fribbels.rs:166-167, 243, 255). They are `seq`s here.
- Every parsed token command overwrites the uid (src/export/fribbels.rs:58-60,
  93).
- The quest status is unwrapped before it is compared
  (src/export/fribbels.rs:243). A quest whose status is not a value of the
  enumeration therefore panics. The model makes a known status a precondition
  of the validator and of every operation that reaches it (`StatusesKnown`,
  `CanRead`).

## Model

| member | source | states |
|---|---|---|
| Proto.EnumOrUnknown.Unwrap | src/export/fribbels.rs:243 | defined only for a known enumeration value, and returns exactly that value |
| Fribbels.ExportProtoAchievement | src/export/fribbels.rs:241-251 | returns an achievement exactly when the status is closed or finished and the id is in the achievement list; the achievement carries the quest id |
| Fribbels.ExportProtoBook | src/export/fribbels.rs:253-263 | returns a book exactly when the item type is in the book list; the book carries the item type |
| Fribbels.AcceptedBooks | src/export/fribbels.rs:63-68 | the accepted book ids are never more than the materials; AcceptedBooksAppend, AcceptedBooksMembers, AcceptedBooksCount and AcceptedBooksAllKnown characterise its result |
| Fribbels.AcceptedAchievements | src/export/fribbels.rs:73-78 | the accepted achievement ids are never more than the quests; AcceptedAchievementsAppend, AcceptedAchievementsMembers, AcceptedAchievementsCount and AcceptedAchievementsAllKnown characterise its result |
| Fribbels.AcceptedBooksAppend | src/export/fribbels.rs:62-65 | filtering a concatenation of materials yields the concatenation of the filtered parts, so accepted ids keep their order |
| Fribbels.AcceptedBooksMembers | src/export/fribbels.rs:62-68 | an id is accepted exactly when it is in the book list and some material has it as item type |
| Fribbels.AcceptedBooksCount | src/export/fribbels.rs:62-68 | each known item type is accepted once per material that has it, an unknown one never, so there is no deduplication |
| Fribbels.AcceptedBooksAllKnown | src/export/fribbels.rs:62-68 | when every material is a known book, the result is the item types of the list, position by position |
| Fribbels.AcceptedAchievementsAppend | src/export/fribbels.rs:72-75 | filtering a concatenation of quests yields the concatenation of the filtered parts, so accepted ids keep their order |
| Fribbels.AcceptedAchievementsMembers | src/export/fribbels.rs:72-78 | an id is accepted exactly when it is in the achievement list and some quest has that id and a terminal status |
| Fribbels.AcceptedAchievementsCount | src/export/fribbels.rs:72-78 | each known id is accepted once per terminal quest that has it, an unknown one never |
| Fribbels.AcceptedAchievementsAllKnown | src/export/fribbels.rs:72-78 | when every quest is terminal and known, the result is the quest ids of the list, position by position |
| Fribbels.Ready | src/export/fribbels.rs:130-134 | no contract of its own; IsFinished states the conjunction on the class and FeedKeepsReady states that readiness persists |
| Fribbels.Step | src/export/fribbels.rs:86-128 | one `read_command` on a session value: both lists keep their old contents as a prefix, a set uid stays set, an ignored or unparsable command changes nothing, and readiness is kept; StepConsistent and the Feed lemmas prove more |
| Fribbels.StepConsistent | src/export/fribbels.rs:86-128 | reading one command keeps every collected id inside its reference list |
| Fribbels.OptimizerExporter.constructor | src/export/fribbels.rs:49-56 | keeps the database, starts with no uid and two empty lists, not yet exported, with the invariant established |
| Fribbels.OptimizerExporter.SetUid | src/export/fribbels.rs:58-60 | the uid becomes the given one; both lists are unchanged; the invariant is kept |
| Fribbels.OptimizerExporter.AddInventory | src/export/fribbels.rs:62-70 | books become the old books followed by the accepted item types of the bag; uid and achievements are unchanged; the invariant is kept |
| Fribbels.OptimizerExporter.AddAchievements | src/export/fribbels.rs:72-80 | achievements become the old achievements followed by the accepted quest ids; uid and books are unchanged; the invariant is kept |
| Fribbels.OptimizerExporter.ReadCommand | src/export/fribbels.rs:86-128 | the new state is `Step` of the old state; an unrecognised command or a parse failure leaves every field unchanged; the invariant is kept |
| Fribbels.OptimizerExporter.IsFinished | src/export/fribbels.rs:130-134 | true exactly when the uid is set and both lists are non-empty |
| Fribbels.OptimizerExporter.Export | src/export/fribbels.rs:136-162 | always returns a document: source "completionist_archiver", the build constant, version 3, the uid and both lists as accumulated; when the invariant held, every id in the document is in its reference list; it marks the aggregator consumed |
| FribbelsProperties.FeedSplit | src/export/fribbels.rs:86-128 | reading two streams one after the other is reading their concatenation |
| FribbelsProperties.FeedConsistent | src/export/fribbels.rs:49-80 | from any consistent state, and so from `new`, every stream keeps every collected id inside its reference list |
| FribbelsProperties.FeedIgnored | src/export/fribbels.rs:86-128 | a stream of unrecognised or unparsable commands leaves the state exactly as it was |
| FribbelsProperties.FeedGrows | src/export/fribbels.rs:58-80 | the lists only grow at their end, keeping the old contents as a prefix, and a set uid stays set |
| FribbelsProperties.FeedKeepsReady | src/export/fribbels.rs:130-134 | once ready, the aggregator stays ready whatever else it reads |
| FribbelsProperties.FeedKeepsUid | src/export/fribbels.rs:86-99 | commands other than a parsed token command leave the uid unchanged |
| FribbelsProperties.LastUidWins | src/export/fribbels.rs:58-60 | after a stream, the uid is that of the last parsed token command |
| FribbelsProperties.BagTwiceCountsTwice | src/export/fribbels.rs:62-70 | reading the same bag twice adds each of its known books twice |
| FribbelsProperties.QuestDataTwiceCountsTwice | src/export/fribbels.rs:72-80 | reading the same quest data twice adds each of its accepted achievements twice |
| FribbelsProperties.Scenario | src/export/fribbels.rs:49-162 | with achievement list [100, 200] and book list [55], the commands token 123456, quest 100 finished, quest 300 finished and bag with item 55 make the aggregator ready, and the export is uid 123456, achievements [100], books [55] |

## Left out

- Loading the reference data (`Database::new_from_online` and the three
  `load_online_*` functions, with `get` and `get_json`) is left out. These are
  blocking HTTP fetches, JSON parsing and panicking unwraps. The lists are
  given to the model as inputs. This also leaves out the `u64` to `u32`
  truncation of the loaded ids.
- The base64 decoding of the key table and the `keys()` accessor are left out.
  The key table is a field of `Database` that the aggregator never reads.
- `GameCommand::parse_proto`, `get_command_name` and the numeric command ids
  belong to the external protocol library. A command is modelled after its
  command id has been matched, as a parse result or an ignored id.
- All `tracing` output is left out. It has no effect on state. This includes
  the warnings in `export`, whose text says "relics" for achievements and
  books.
- serde serialisation of the export document, and any JSON round trip, are left
  out. They live in derive macros.
- The value of `CARGO_PKG_VERSION` is not modelled. `BUILD` is a constant of
  unknown value.
- The `Exporter` trait that `read_command`, `is_finished` and `export`
  implement is not part of this model. Its methods are members of the class.
- A panic is not modelled as behaviour. The panic on a quest status that is not
  a value of the enumeration is excluded by preconditions.
- Rust's move into `export` is modelled by a ghost flag, not by the type
  system.
