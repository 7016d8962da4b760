/** The Alembic revisions under alembic/versions: each revision's
    identifiers and its upgrade and downgrade as schema operations, with
    what running them does. */
module AlembicRevisions {
  import opened Common
  import opened Migrations

  // ---------------------------------------------------------------------
  // Column shorthands
  // ---------------------------------------------------------------------

  /** `sa.Column(..., autoincrement=True, nullable=False)` for the id. */
  const AutoId: Column := Column(Integer, false, None, true)

  function Nullable(k: ColType): Column { Column(k, true, None, false) }
  function NotNull(k: ColType): Column { Column(k, false, None, false) }
  function NotNullDefault(k: ColType, d: String): Column { Column(k, false, Some(d), false) }

  // ---------------------------------------------------------------------
  // The revision chain
  // ---------------------------------------------------------------------

  /** A revision file's `revision` and `down_revision`. */
  datatype Header = Header(revision: String, downRevision: Option<String>)

  /** The identifiers as the revision files declare them, in file order. */
  const ChainAsWritten: seq<Header> := [
    Header("rename_metadata_column", None),
    Header("002_add_lounge_id", Some("rename_metadata_column")),
    Header("003_add_lounge_profile_image", Some("002_add_lounge_id")),
    Header("42fb2bd0a668", Some("003_add_lounge_profile_image")),
    Header("004_normalize_enum_values", Some("42fb2bd0a668")),
    Header("005_add_contact_messages", Some("004_normalize_enum_values")),
    Header("006_add_reply_to_id", Some("005_add_contact_messages")),
    Header("007_add_lounge_subscriptions", Some("006_add_reply_to_id")),
    Header("008_add_lounge_id_to_notes", Some("007_add_lounge_subscriptions")),
    Header("009_add_lounge_resources", Some("008_add_lounge_id_to_notes")),
    Header("010", Some("009")),
    Header("011", Some("010")),
    Header("012", Some("011_add_rag_to_public_chatbot")),
    Header("013", Some("012")),
    Header("014", Some("013"))
  ]

  /** The same chain with 010 and 012 naming their parents by the
      identifiers those parents declare. */
  const Chain: seq<Header> := [
    Header("rename_metadata_column", None),
    Header("002_add_lounge_id", Some("rename_metadata_column")),
    Header("003_add_lounge_profile_image", Some("002_add_lounge_id")),
    Header("42fb2bd0a668", Some("003_add_lounge_profile_image")),
    Header("004_normalize_enum_values", Some("42fb2bd0a668")),
    Header("005_add_contact_messages", Some("004_normalize_enum_values")),
    Header("006_add_reply_to_id", Some("005_add_contact_messages")),
    Header("007_add_lounge_subscriptions", Some("006_add_reply_to_id")),
    Header("008_add_lounge_id_to_notes", Some("007_add_lounge_subscriptions")),
    Header("009_add_lounge_resources", Some("008_add_lounge_id_to_notes")),
    Header("010", Some("009_add_lounge_resources")),
    Header("011", Some("010")),
    Header("012", Some("011")),
    Header("013", Some("012")),
    Header("014", Some("013"))
  ]

  /** The revision `h` revises is one of the chain's revisions (or `h` is a
      base). Alembic's revision map raises for a parent it cannot find, so
      no command can load the scripts. */
  predicate Resolves(chain: seq<Header>, h: Header) {
    h.downRevision.None? ||
    exists j :: 0 <= j < |chain| && chain[j].revision == h.downRevision.value
  }

  predicate Loads(chain: seq<Header>) {
    forall i :: 0 <= i < |chain| ==> Resolves(chain, chain[i])
  }

  /** One base, and every later revision revises the one before it. */
  predicate Linear(chain: seq<Header>) {
    |chain| > 0 && chain[0].downRevision.None? &&
    forall i :: 0 < i < |chain| ==> chain[i].downRevision == Some(chain[i - 1].revision)
  }

  lemma LinearLoads(chain: seq<Header>)
    requires Linear(chain)
    ensures Loads(chain)
  {
    forall i | 0 <= i < |chain| ensures Resolves(chain, chain[i]) {
      if i > 0 {
        assert chain[i - 1].revision == chain[i].downRevision.value;
      }
    }
  }

  /** As written, the chain is linear everywhere except at 010, which
      revises "009", and at 012, which revises
      "011_add_rag_to_public_chatbot": no revision declares either
      identifier, so the scripts do not load. */
  lemma ChainAsWrittenBroken()
    ensures |ChainAsWritten| == 15 && ChainAsWritten[0].downRevision.None?
    ensures forall i :: 0 < i < 15 && i != 10 && i != 12 ==>
      ChainAsWritten[i].downRevision == Some(ChainAsWritten[i - 1].revision)
    ensures ChainAsWritten[10].revision == "010" && !Resolves(ChainAsWritten, ChainAsWritten[10])
    ensures ChainAsWritten[12].revision == "012" && !Resolves(ChainAsWritten, ChainAsWritten[12])
    ensures !Loads(ChainAsWritten)
  {
    forall j | 0 <= j < |ChainAsWritten| ensures ChainAsWritten[j].revision != "009" {
      assert |ChainAsWritten[j].revision| != 3 || ChainAsWritten[j].revision[1] == '1';
    }
    forall j | 0 <= j < |ChainAsWritten| ensures ChainAsWritten[j].revision != "011_add_rag_to_public_chatbot" {
      assert |ChainAsWritten[j].revision| != |"011_add_rag_to_public_chatbot"|;
    }
  }

  /** With the two parents corrected the chain is linear, so it loads and
      every revision but the first has exactly the parent before it; it
      differs from the files only at 010 and 012. */
  lemma ChainLinear()
    ensures Linear(Chain) && Loads(Chain)
  {
    LinearLoads(Chain);
  }

  /** The corrected chain differs from the files only at 010 and 012. */
  lemma ChainCorrectsTwoParents()
    ensures |Chain| == |ChainAsWritten|
    ensures forall i :: 0 <= i < |Chain| && i != 10 && i != 12 ==> Chain[i] == ChainAsWritten[i]
    ensures Chain[10].downRevision == Some(ChainAsWritten[9].revision)
    ensures Chain[12].downRevision == Some(ChainAsWritten[11].revision)
  {
  }

  // ---------------------------------------------------------------------
  // rename_metadata_column (001)
  // ---------------------------------------------------------------------

  const Up001: seq<Op> := [RenameColumn("chat_messages", "metadata", "message_metadata")]
  const Down001: seq<Op> := [RenameColumn("chat_messages", "message_metadata", "metadata")]

  /** The downgrade renames the column back, restoring the schema. */
  lemma Mirrors001()
    ensures Mirrors(Up001, Down001)
  {
  }

  lemma RoundTrip001(s: Schema)
    requires WF(s) && Run(s, Up001).Some?
    ensures Run(Run(s, Up001).value, Down001) == Some(s)
  {
    Mirrors001();
    MirroredRoundTrip(s, Up001, Down001);
  }

  // ---------------------------------------------------------------------
  // 002_add_lounge_id
  // ---------------------------------------------------------------------

  const LoungeCascade: ForeignKey := ForeignKey(["lounge_id"], "lounges", ["id"], Cascade)
  const LoungeIdIndex: Index := Index(["lounge_id"], false)

  const Up002: seq<Op> := [
    AddColumn("kb_categories", "lounge_id", Nullable(Integer)),
    CreateIndex("kb_categories", "ix_kb_categories_lounge_id", LoungeIdIndex),
    CreateForeignKey("kb_categories", "fk_kb_categories_lounge_id", LoungeCascade),
    AddColumn("kb_prompts", "lounge_id", Nullable(Integer)),
    CreateIndex("kb_prompts", "ix_kb_prompts_lounge_id", LoungeIdIndex),
    CreateForeignKey("kb_prompts", "fk_kb_prompts_lounge_id", LoungeCascade),
    AddColumn("kb_documents", "lounge_id", Nullable(Integer)),
    CreateIndex("kb_documents", "ix_kb_documents_lounge_id", LoungeIdIndex),
    CreateForeignKey("kb_documents", "fk_kb_documents_lounge_id", LoungeCascade),
    AddColumn("kb_faqs", "lounge_id", Nullable(Integer)),
    CreateIndex("kb_faqs", "ix_kb_faqs_lounge_id", LoungeIdIndex),
    CreateForeignKey("kb_faqs", "fk_kb_faqs_lounge_id", LoungeCascade)
  ]
  const Down002: seq<Op> := [
    DropForeignKey("kb_faqs", "fk_kb_faqs_lounge_id"),
    DropIndex("kb_faqs", "ix_kb_faqs_lounge_id"),
    DropColumn("kb_faqs", "lounge_id"),
    DropForeignKey("kb_documents", "fk_kb_documents_lounge_id"),
    DropIndex("kb_documents", "ix_kb_documents_lounge_id"),
    DropColumn("kb_documents", "lounge_id"),
    DropForeignKey("kb_prompts", "fk_kb_prompts_lounge_id"),
    DropIndex("kb_prompts", "ix_kb_prompts_lounge_id"),
    DropColumn("kb_prompts", "lounge_id"),
    DropForeignKey("kb_categories", "fk_kb_categories_lounge_id"),
    DropIndex("kb_categories", "ix_kb_categories_lounge_id"),
    DropColumn("kb_categories", "lounge_id")
  ]

  lemma Mirrors002()
    ensures Mirrors(Up002, Down002)
  {
  }

  lemma RoundTrip002(s: Schema)
    requires WF(s) && Run(s, Up002).Some?
    ensures Run(Run(s, Up002).value, Down002) == Some(s)
  {
    Mirrors002();
    MirroredRoundTrip(s, Up002, Down002);
  }

  // ---------------------------------------------------------------------
  // 003_add_lounge_profile_image
  // ---------------------------------------------------------------------

  const Up003: seq<Op> := [
    AddColumn("lounges", "profile_image_id", Nullable(Integer)),
    CreateIndex("lounges", "ix_lounges_profile_image_id", Index(["profile_image_id"], false)),
    CreateForeignKey("lounges", "fk_lounges_profile_image_id", ForeignKey(["profile_image_id"], "files", ["id"], SetNull))
  ]
  const Down003: seq<Op> := [
    DropForeignKey("lounges", "fk_lounges_profile_image_id"),
    DropIndex("lounges", "ix_lounges_profile_image_id"),
    DropColumn("lounges", "profile_image_id")
  ]

  lemma Mirrors003()
    ensures Mirrors(Up003, Down003)
  {
  }

  lemma RoundTrip003(s: Schema)
    requires WF(s) && Run(s, Up003).Some?
    ensures Run(Run(s, Up003).value, Down003) == Some(s)
  {
    Mirrors003();
    MirroredRoundTrip(s, Up003, Down003);
  }

  // ---------------------------------------------------------------------
  // 42fb2bd0a668: make lounges.category_id optional
  // ---------------------------------------------------------------------

  const Up42fb: seq<Op> := [SetNullable("lounges", "category_id", true)]
  const Down42fb: seq<Op> := [SetNullable("lounges", "category_id", false)]

  /** From a NOT NULL category_id with no NULLs the upgrade succeeds and the
      downgrade restores the schema. */
  lemma RoundTrip42fb(s: Schema)
    requires "lounges" in s && "category_id" in s["lounges"].columns
    requires !s["lounges"].columns["category_id"].nullable
    requires NoNulls(s["lounges"].rows, "category_id")
    ensures Run(s, Up42fb).Some?
    ensures Run(Run(s, Up42fb).value, Down42fb) == Some(s)
  {
    var tb := s["lounges"];
    var col := tb.columns["category_id"];
    RunSingle(s, Up42fb[0]);
    var tb1 := tb.(columns := tb.columns["category_id" := col.(nullable := true)]);
    var s1 := s["lounges" := tb1];
    assert Run(s, Up42fb) == Some(s1);
    RunSingle(s1, Down42fb[0]);
    assert tb1.(columns := tb1.columns["category_id" := col]) == tb;
    assert s1["lounges" := tb] == s;
  }

  /** Once a lounge without a category is stored, the downgrade is refused. */
  lemma DowngradeRefused42fb(s: Schema, k: nat)
    requires "lounges" in s && k < |s["lounges"].rows|
    requires "category_id" in s["lounges"].rows[k] && s["lounges"].rows[k]["category_id"] == Null
    ensures Run(s, Down42fb) == None
  {
    RunSingle(s, Down42fb[0]);
  }

  // ---------------------------------------------------------------------
  // 004_normalize_enum_values
  // ---------------------------------------------------------------------

  const Up004: seq<Op> := [
    LowerColumn("users", "role"),
    LowerColumn("mentors", "status"),
    LowerColumn("lounges", "access_type"),
    LowerColumn("lounge_memberships", "role"),
    LowerColumn("chat_threads", "status"),
    LowerColumn("chat_messages", "sender_type"),
    LowerColumn("oauth_accounts", "provider"),
    LowerColumn("time_capsules", "status"),
    LowerColumn("subscription_plans", "billing_interval"),
    LowerColumn("subscriptions", "status"),
    LowerColumn("payments", "provider"),
    LowerColumn("payments", "status"),
    LowerColumn("notifications", "channel"),
    LowerColumn("notifications", "status"),
    LowerColumn("compliance_requests", "request_type"),
    LowerColumn("compliance_requests", "status")
  ]

  /** The downgrade is `pass`. */
  const Down004: seq<Op> := []

  lemma AllLowering004()
    ensures AllLowering(Up004)
  {
  }

  /** After the upgrade every column it names holds only lower-case values,
      and no table or column was added or removed. */
  lemma Upgrade004Lowers(s: Schema)
    requires Run(s, Up004).Some?
    ensures NamesLowered(Run(s, Up004).value, Up004)
    ensures Run(s, Up004).value.Keys == s.Keys
    ensures forall n :: n in s ==> Run(s, Up004).value[n].columns == s[n].columns
  {
    AllLowering004();
    RunLowers(s, Up004);
    RunLowerKeepsColumns(s, Up004);
  }

  /** Running the upgrade a second time changes nothing. */
  lemma Upgrade004Idempotent(s: Schema)
    requires Run(s, Up004).Some?
    ensures Run(Run(s, Up004).value, Up004) == Run(s, Up004)
  {
    var x := Run(s, Up004).value;
    AllLowering004();
    RunLowers(s, Up004);
    RunLowerKeepsColumns(s, Up004);
    RunLowerIdle(x, Up004);
  }

  /** The downgrade leaves the lower-cased values in place, so a database
      that held an upper-case value in a column the upgrade names does not
      come back. */
  lemma Downgrade004KeepsLowered(s: Schema, t: String, c: String, k: nat)
    requires Run(s, Up004).Some? && LowerColumn(t, c) in Up004
    requires t in s && k < |s[t].rows| && c in s[t].rows[k] && s[t].rows[k][c].Lit?
    requires Lower(s[t].rows[k][c].text) != s[t].rows[k][c].text
    ensures Run(Run(s, Up004).value, Down004) == Run(s, Up004)
    ensures Run(Run(s, Up004).value, Down004) != Some(s)
  {
    var x := Run(s, Up004).value;
    Upgrade004Lowers(s);
    var i :| 0 <= i < |Up004| && Up004[i] == LowerColumn(t, c);
    assert LoweredAt(x, t, c);
    assert !Lowered(s[t], c);
  }

  // ---------------------------------------------------------------------
  // 005_add_contact_messages
  // ---------------------------------------------------------------------

  const Up005: seq<Op> := [
    CreateTable("contact_messages", map[
      "id" := AutoId,
      "name" := NotNull(VarChar(255)),
      "email" := NotNull(VarChar(255)),
      "subject" := NotNull(VarChar(500)),
      "message" := NotNull(Text),
      "status" := NotNullDefault(VarChar(20), "new"),
      "ip_address" := Nullable(VarChar(45)),
      "user_agent" := Nullable(VarChar(500)),
      "created_at" := NotNullDefault(DateTime, "CURRENT_TIMESTAMP"),
      "read_at" := Nullable(DateTime),
      "replied_at" := Nullable(DateTime)], map[]),
    CreateIndex("contact_messages", "ix_contact_messages_id", Index(["id"], false)),
    CreateIndex("contact_messages", "ix_contact_messages_email", Index(["email"], false)),
    CreateIndex("contact_messages", "ix_contact_messages_status", Index(["status"], false)),
    CreateIndex("contact_messages", "ix_contact_messages_created_at", Index(["created_at"], false))
  ]
  const Down005: seq<Op> := [
    DropIndex("contact_messages", "ix_contact_messages_created_at"),
    DropIndex("contact_messages", "ix_contact_messages_status"),
    DropIndex("contact_messages", "ix_contact_messages_email"),
    DropIndex("contact_messages", "ix_contact_messages_id"),
    DropTable("contact_messages")
  ]

  lemma Mirrors005()
    ensures Mirrors(Up005, Down005)
  {
  }

  lemma RoundTrip005(s: Schema)
    requires WF(s) && Run(s, Up005).Some?
    ensures Run(Run(s, Up005).value, Down005) == Some(s)
  {
    Mirrors005();
    MirroredRoundTrip(s, Up005, Down005);
  }

  // ---------------------------------------------------------------------
  // 006_add_reply_to_id
  // ---------------------------------------------------------------------

  const Up006: seq<Op> := [
    AddColumn("chat_messages", "reply_to_id", Nullable(Integer)),
    CreateForeignKey("chat_messages", "fk_chat_messages_reply_to_id", ForeignKey(["reply_to_id"], "chat_messages", ["id"], SetNull)),
    CreateIndex("chat_messages", "ix_chat_messages_reply_to_id", Index(["reply_to_id"], false))
  ]
  const Down006: seq<Op> := [
    DropIndex("chat_messages", "ix_chat_messages_reply_to_id"),
    DropForeignKey("chat_messages", "fk_chat_messages_reply_to_id"),
    DropColumn("chat_messages", "reply_to_id")
  ]

  lemma Mirrors006()
    ensures Mirrors(Up006, Down006)
  {
  }

  lemma RoundTrip006(s: Schema)
    requires WF(s) && Run(s, Up006).Some?
    ensures Run(Run(s, Up006).value, Down006) == Some(s)
  {
    Mirrors006();
    MirroredRoundTrip(s, Up006, Down006);
  }

  /** MySQL refuses revision 006's downgrade: its first operation drops
      the index that, once the upgrade has run, alone serves the new
      foreign key. */
  lemma Down006RefusedAsWritten(s: Schema)
    requires WF(s) && Run(s, Up006).Some?
    requires "chat_messages" in s && KeysNameColumns(s["chat_messages"])
    ensures RunMySql(Run(s, Up006).value, Down006).None?
  {
    var t := "chat_messages";
    var s3 := After006(s);
    var fk := "fk_chat_messages_reply_to_id";
    var ix := "ix_chat_messages_reply_to_id";
    assert Serves(s3[t].indexes[ix], s3[t].foreignKeys[fk]);
    forall m | m in s3[t].indexes && m != ix
      ensures !Serves(s3[t].indexes[m], s3[t].foreignKeys[fk])
    {
      var cols := s[t].indexes[m].columns;
      if |cols| >= 1 {
        assert cols[0] in cols;
        assert cols[..1][0] == cols[0];
      }
    }
    assert NeededByForeignKey(s3[t], ix);
  }

  /** The downgrade with the foreign key dropped before its index, the
      order revision 008 uses. */
  const Down006Fixed: seq<Op> := [
    DropForeignKey("chat_messages", "fk_chat_messages_reply_to_id"),
    DropIndex("chat_messages", "ix_chat_messages_reply_to_id"),
    DropColumn("chat_messages", "reply_to_id")
  ]

  /** The schema revision 006's upgrade leaves: the column, the key and
      the index added to `chat_messages`. */
  lemma After006(s: Schema) returns (s3: Schema)
    requires Run(s, Up006).Some?
    ensures "chat_messages" in s && "reply_to_id" !in s["chat_messages"].columns
    ensures "fk_chat_messages_reply_to_id" !in s["chat_messages"].foreignKeys
    ensures Run(s, Up006) == Some(s3)
    ensures "chat_messages" in s3
    ensures s3["chat_messages"].foreignKeys ==
              s["chat_messages"].foreignKeys["fk_chat_messages_reply_to_id" := Up006[1].fk]
    ensures s3["chat_messages"].indexes ==
              s["chat_messages"].indexes["ix_chat_messages_reply_to_id" := Up006[2].index]
  {
    var s1 := Apply(s, Up006[0]).value;
    var s2 := Apply(s1, Up006[1]).value;
    s3 := Apply(s2, Up006[2]).value;
    assert Up006[1..][1..] == [Up006[2]];
    RunSingle(s2, Up006[2]);
  }

  /** Dropping a key and dropping an index of the same table commute. */
  lemma DropKeyIndexCommute(x: Schema, t: String, f: String, n: String)
    requires t in x && f in x[t].foreignKeys && n in x[t].indexes
    ensures Apply(x, DropForeignKey(t, f)).Some? && Apply(x, DropIndex(t, n)).Some?
    ensures Apply(Apply(x, DropForeignKey(t, f)).value, DropIndex(t, n))
            == Apply(Apply(x, DropIndex(t, n)).value, DropForeignKey(t, f))
  {
    var both := x[t].(foreignKeys := x[t].foreignKeys - {f}, indexes := x[t].indexes - {n});
    var y := x[t := x[t].(foreignKeys := x[t].foreignKeys - {f})];
    assert Apply(x, DropForeignKey(t, f)) == Some(y);
    assert y[t].(indexes := y[t].indexes - {n}) == both;
    assert y[t := both] == x[t := both];
    assert Apply(y, DropIndex(t, n)) == Some(x[t := both]);
    var z := x[t := x[t].(indexes := x[t].indexes - {n})];
    assert Apply(x, DropIndex(t, n)) == Some(z);
    assert z[t].(foreignKeys := z[t].foreignKeys - {f}) == both;
    assert z[t := both] == x[t := both];
    assert Apply(z, DropForeignKey(t, f)) == Some(x[t := both]);
  }

  /** Three operations that each succeed in turn, run by `Run` and by
      `RunMySql`. */
  lemma RunThree(x: Schema, o0: Op, o1: Op, o2: Op, a: Schema, b: Schema)
    requires Apply(x, o0) == Some(a) && Apply(a, o1) == Some(b)
    ensures Run(x, [o0, o1, o2]) == Apply(b, o2)
  {
    assert [o0, o1, o2][1..] == [o1, o2];
    assert [o1, o2][1..] == [o2];
    RunSingle(b, o2);
  }

  lemma RunMySqlThree(x: Schema, o0: Op, o1: Op, o2: Op, a: Schema, b: Schema)
    requires ApplyMySql(x, o0) == Some(a) && ApplyMySql(a, o1) == Some(b)
    ensures RunMySql(x, [o0, o1, o2]) == ApplyMySql(b, o2)
  {
    assert [o0, o1, o2][1..] == [o1, o2];
    assert [o1, o2][1..] == [o2];
    assert [o2][1..] == [];
    assert RunMySql(x, [o0, o1, o2]) == RunMySql(a, [o1, o2]);
    assert RunMySql(a, [o1, o2]) == RunMySql(b, [o2]);
    match ApplyMySql(b, o2) {
      case None =>
      case Some(c) => assert RunMySql(c, []) == Some(c);
    }
  }

  /** MySQL runs the reordered downgrade, and it restores the schema. */
  lemma RoundTrip006Fixed(s: Schema)
    requires WF(s) && Run(s, Up006).Some?
    requires "chat_messages" in s && KeysNameColumns(s["chat_messages"])
    ensures RunMySql(Run(s, Up006).value, Down006Fixed) == Some(s)
  {
    var t := "chat_messages";
    var fk := "fk_chat_messages_reply_to_id";
    var ix := "ix_chat_messages_reply_to_id";
    var s3 := After006(s);
    var a := s3[t := s3[t].(foreignKeys := s3[t].foreignKeys - {fk})];
    assert a[t].foreignKeys == s[t].foreignKeys;
    NewColumnIndexFree(s[t], a[t], "reply_to_id", ix);
    KeyFirstDowngrade(s3, t, fk, ix, Down006[2]);
    RoundTrip006(s);
  }

  /** Dropping a key before an index MySQL lets go of runs like `Run`
      on the downgrade that drops the index first. */
  lemma KeyFirstDowngrade(x: Schema, t: String, f: String, n: String, o2: Op)
    requires t in x && f in x[t].foreignKeys && n in x[t].indexes
    requires !NeededByForeignKey(x[t].(foreignKeys := x[t].foreignKeys - {f}), n)
    requires !o2.DropIndex?
    ensures RunMySql(x, [DropForeignKey(t, f), DropIndex(t, n), o2])
            == Run(x, [DropIndex(t, n), DropForeignKey(t, f), o2])
  {
    DropKeyIndexCommute(x, t, f, n);
    var a := Apply(x, DropForeignKey(t, f)).value;
    assert a[t] == x[t].(foreignKeys := x[t].foreignKeys - {f});
    var b := Apply(a, DropIndex(t, n)).value;
    var a' := Apply(x, DropIndex(t, n)).value;
    RunMySqlThree(x, DropForeignKey(t, f), DropIndex(t, n), o2, a, b);
    RunThree(x, DropIndex(t, n), DropForeignKey(t, f), o2, a', b);
  }

  // ---------------------------------------------------------------------
  // 007_add_lounge_subscriptions
  // ---------------------------------------------------------------------

  /** The table revision 007 creates. */
  const SubscriptionColumns: map<String, Column> := map[
    "id" := AutoId,
    "user_id" := NotNull(Integer),
    "lounge_id" := NotNull(Integer),
    "plan_type" := NotNull(VarChar(20)),
    "stripe_subscription_id" := NotNull(VarChar(255)),
    "stripe_price_id" := NotNull(VarChar(255)),
    "status" := NotNullDefault(VarChar(20), "active"),
    "started_at" := NotNullDefault(DateTime, "CURRENT_TIMESTAMP"),
    "renews_at" := NotNull(DateTime),
    "canceled_at" := Nullable(DateTime)]

  /** Foreign keys declared inside `create_table` get MySQL's generated
      names, numbered in declaration order. */
  const SubscriptionKeys: map<String, ForeignKey> := map[
    "lounge_subscriptions_ibfk_1" := LoungeCascade,
    "lounge_subscriptions_ibfk_2" := ForeignKey(["user_id"], "users", ["id"], Cascade)]

  /** The indexes the upgrade leaves on `lounge_subscriptions`. */
  const SubscriptionIndexes: map<String, Index> := map[
    "ix_lounge_subscriptions_id" := Index(["id"], false),
    "ix_lounge_subscriptions_user_id" := Index(["user_id"], false),
    "ix_lounge_subscriptions_lounge_id" := Index(["lounge_id"], false),
    "ix_lounge_subscriptions_stripe_subscription_id" := Index(["stripe_subscription_id"], true),
    "ix_lounge_subscriptions_user_lounge" := Index(["user_id", "lounge_id"], false)]

  const Up007: seq<Op> := [
    AddColumn("lounges", "stripe_product_id", Nullable(VarChar(255))),
    AddColumn("lounges", "stripe_monthly_price_id", Nullable(VarChar(255))),
    AddColumn("lounges", "stripe_yearly_price_id", Nullable(VarChar(255))),
    CreateIndex("lounges", "ix_lounges_stripe_product_id", Index(["stripe_product_id"], false)),
    CreateTable("lounge_subscriptions", SubscriptionColumns, SubscriptionKeys),
    CreateIndex("lounge_subscriptions", "ix_lounge_subscriptions_id", Index(["id"], false)),
    CreateIndex("lounge_subscriptions", "ix_lounge_subscriptions_user_id", Index(["user_id"], false)),
    CreateIndex("lounge_subscriptions", "ix_lounge_subscriptions_lounge_id", Index(["lounge_id"], false)),
    CreateIndex("lounge_subscriptions", "ix_lounge_subscriptions_stripe_subscription_id", Index(["stripe_subscription_id"], true)),
    CreateIndex("lounge_subscriptions", "ix_lounge_subscriptions_user_lounge", Index(["user_id", "lounge_id"], false))
  ]
  const Down007: seq<Op> := [
    DropIndex("lounge_subscriptions", "ix_lounge_subscriptions_user_lounge"),
    DropIndex("lounge_subscriptions", "ix_lounge_subscriptions_stripe_subscription_id"),
    DropIndex("lounge_subscriptions", "ix_lounge_subscriptions_lounge_id"),
    DropIndex("lounge_subscriptions", "ix_lounge_subscriptions_user_id"),
    DropIndex("lounge_subscriptions", "ix_lounge_subscriptions_id"),
    DropTable("lounge_subscriptions"),
    DropIndex("lounges", "ix_lounges_stripe_product_id"),
    DropColumn("lounges", "stripe_yearly_price_id"),
    DropColumn("lounges", "stripe_monthly_price_id"),
    DropColumn("lounges", "stripe_product_id")
  ]

  lemma Mirrors007()
    ensures Mirrors(Up007, Down007)
  {
  }

  lemma RoundTrip007(s: Schema)
    requires WF(s) && Run(s, Up007).Some?
    ensures Run(Run(s, Up007).value, Down007) == Some(s)
  {
    Mirrors007();
    MirroredRoundTrip(s, Up007, Down007);
  }

  /** What revision 007's first four operations leave: the three columns
      and the index added to `lounges`, and no `lounge_subscriptions`. */
  lemma After007Lounges(s: Schema) returns (s1: Schema)
    requires Run(s, Up007).Some?
    ensures "lounges" in s && "stripe_product_id" !in s["lounges"].columns
    ensures Run(s, Up007[..4]) == Some(s1) && Run(s1, Up007[4..]) == Run(s, Up007)
    ensures "lounges" in s1 && "lounge_subscriptions" !in s1
    ensures s1["lounges"].foreignKeys == s["lounges"].foreignKeys
    ensures "ix_lounges_stripe_product_id" in s1["lounges"].indexes
    ensures s1["lounges"].indexes["ix_lounges_stripe_product_id"] == Index(["stripe_product_id"], false)
  {
    assert Up007 == Up007[..4] + Up007[4..];
    RunAppend(s, Up007[..4], Up007[4..]);
    s1 := Lounges007(s);
    RunStep(s1, Up007[4..]);
  }

  lemma Lounges007(s: Schema) returns (s1: Schema)
    requires Run(s, Up007[..4]).Some?
    ensures "lounges" in s && "stripe_product_id" !in s["lounges"].columns
    ensures Run(s, Up007[..4]) == Some(s1) && "lounges" in s1
    ensures s1["lounges"].foreignKeys == s["lounges"].foreignKeys
    ensures "ix_lounges_stripe_product_id" in s1["lounges"].indexes
    ensures s1["lounges"].indexes["ix_lounges_stripe_product_id"] == Index(["stripe_product_id"], false)
  {
    var u := Up007[..4];
    assert u[1..][0] == u[1] && u[1..][1..][0] == u[2];
    assert u[2] == AddColumn("lounges", "stripe_yearly_price_id", Nullable(VarChar(255)));
    RunStep(s, u);
    var a := Apply(s, u[0]).value;
    assert a["lounges"].foreignKeys == s["lounges"].foreignKeys;
    RunStep(a, u[1..]);
    var b := Apply(a, u[1]).value;
    assert b["lounges"].foreignKeys == s["lounges"].foreignKeys;
    RunStep(b, u[1..][1..]);
    var c := Apply(b, u[2]).value;
    assert c["lounges"].foreignKeys == s["lounges"].foreignKeys;
    assert u[1..][1..][1..] == [u[3]];
    RunSingle(c, u[3]);
    s1 := Apply(c, u[3]).value;
  }

  /** The table revision 007's remaining operations create. */
  lemma After007Table(x: Schema)
    requires Run(x, Up007[4..]).Some?
    ensures "lounge_subscriptions" in Run(x, Up007[4..]).value
    ensures Run(x, Up007[4..]).value["lounge_subscriptions"] ==
              Table(SubscriptionColumns, SubscriptionIndexes, SubscriptionKeys, [])
  {
    var u := Up007[4..];
    var t := "lounge_subscriptions";
    assert u == [CreateTable(t, SubscriptionColumns, SubscriptionKeys)] + Up007[5..];
    RunStep(x, u);
    var a := Apply(x, u[0]).value;
    assert a[t] == Table(SubscriptionColumns, map[], SubscriptionKeys, []);
    assert u[1..] == Up007[5..];
    CreateIndexes007(a);
  }

  lemma CreateIndexes007(a: Schema)
    requires Run(a, Up007[5..]).Some?
    requires "lounge_subscriptions" in a
    requires a["lounge_subscriptions"] == Table(SubscriptionColumns, map[], SubscriptionKeys, [])
    ensures "lounge_subscriptions" in Run(a, Up007[5..]).value
    ensures Run(a, Up007[5..]).value["lounge_subscriptions"] ==
              Table(SubscriptionColumns, SubscriptionIndexes, SubscriptionKeys, [])
  {
    var t := "lounge_subscriptions";
    var u := Up007[5..];
    RunStep(a, u);
    var b := Apply(a, u[0]).value;
    assert u[1..] == Up007[6..];
    RunStep(b, Up007[6..]);
    var c := Apply(b, Up007[6]).value;
    assert Up007[6..][1..] == Up007[7..];
    RunStep(c, Up007[7..]);
    var d := Apply(c, Up007[7]).value;
    assert Up007[7..][1..] == Up007[8..];
    RunStep(d, Up007[8..]);
    var e := Apply(d, Up007[8]).value;
    assert Up007[8..] == [Up007[8], Up007[9]] && [Up007[8], Up007[9]][1..] == [Up007[9]];
    RunSingle(e, Up007[9]);
    var f := Apply(e, Up007[9]).value;
    assert f[t].indexes == SubscriptionIndexes;
  }

  /** Which of the table's indexes its foreign keys need, as revision
      007's downgrade drops them: the composite index and the unique one
      serve no key alone, and then the index on `lounge_id` is the only
      one left serving the key on `lounge_id`. */
  lemma SubscriptionIndexNeeds(tb: Table)
    requires tb.indexes == SubscriptionIndexes && tb.foreignKeys == SubscriptionKeys
    ensures !NeededByForeignKey(tb, "ix_lounge_subscriptions_user_lounge")
    ensures !NeededByForeignKey(tb.(indexes := tb.indexes - {"ix_lounge_subscriptions_user_lounge"}),
                                "ix_lounge_subscriptions_stripe_subscription_id")
    ensures NeededByForeignKey(tb.(indexes := tb.indexes - {"ix_lounge_subscriptions_user_lounge"}
                                 - {"ix_lounge_subscriptions_stripe_subscription_id"}),
                               "ix_lounge_subscriptions_lounge_id")
  {
    var k1, k2 := "lounge_subscriptions_ibfk_1", "lounge_subscriptions_ibfk_2";
    assert SubscriptionKeys.Keys == {k1, k2};
    assert SubscriptionKeys[k1].columns == ["lounge_id"];
    assert SubscriptionIndexes["ix_lounge_subscriptions_user_lounge"].columns[..1] == ["user_id"];
    assert Serves(SubscriptionIndexes["ix_lounge_subscriptions_user_id"], SubscriptionKeys[k2]);
    var rest := SubscriptionIndexes - {"ix_lounge_subscriptions_user_lounge"} - {"ix_lounge_subscriptions_stripe_subscription_id"};
    assert rest.Keys == {"ix_lounge_subscriptions_id", "ix_lounge_subscriptions_user_id", "ix_lounge_subscriptions_lounge_id"};
  }

  /** MySQL refuses revision 007's downgrade at its third operation: once
      the composite index is gone, `ix_lounge_subscriptions_lounge_id`
      alone serves the key on `lounge_id`. */
  lemma Down007RefusedAsWritten(s: Schema)
    requires Run(s, Up007).Some?
    ensures RunMySql(Run(s, Up007).value, Down007).None?
  {
    var s1 := After007Lounges(s);
    After007Table(s1);
    SubscriptionDropsRefused(Run(s, Up007).value);
  }

  lemma SubscriptionDropsRefused(x: Schema)
    requires "lounge_subscriptions" in x
    requires x["lounge_subscriptions"].indexes == SubscriptionIndexes
    requires x["lounge_subscriptions"].foreignKeys == SubscriptionKeys
    ensures RunMySql(x, Down007).None?
  {
    var t := "lounge_subscriptions";
    var ul, ssi, lid := "ix_lounge_subscriptions_user_lounge", "ix_lounge_subscriptions_stripe_subscription_id",
                        "ix_lounge_subscriptions_lounge_id";
    SubscriptionIndexNeeds(x[t]);
    var ops := Down007;
    assert ops[0] == DropIndex(t, ul) && ops[1..][0] == DropIndex(t, ssi) && ops[1..][1..][0] == DropIndex(t, lid);
    DropIndexMySql(x, t, ul);
    var x1 := x[t := x[t].(indexes := x[t].indexes - {ul})];
    RunMySqlStep(x, ops);
    DropIndexMySql(x1, t, ssi);
    var x2 := x1[t := x1[t].(indexes := x1[t].indexes - {ssi})];
    RunMySqlStep(x1, ops[1..]);
    DropIndexMySql(x2, t, lid);
    RunMySqlStep(x2, ops[1..][1..]);
  }

  /** The downgrade with the table dropped whole, its foreign keys and
      indexes with it, as revision 009's downgrade ends. */
  const Down007Fixed: seq<Op> := [
    DropTable("lounge_subscriptions"),
    DropIndex("lounges", "ix_lounges_stripe_product_id"),
    DropColumn("lounges", "stripe_yearly_price_id"),
    DropColumn("lounges", "stripe_monthly_price_id"),
    DropColumn("lounges", "stripe_product_id")
  ]

  /** MySQL runs the corrected downgrade, and it restores the schema. */
  lemma RoundTrip007Fixed(s: Schema)
    requires WF(s) && Run(s, Up007).Some?
    requires "lounges" in s && KeysNameColumns(s["lounges"])
    ensures RunMySql(Run(s, Up007).value, Down007Fixed) == Some(s)
  {
    var s1 := After007Lounges(s);
    Up007CreatesElsewhere();
    RunElsewhere(s1, Up007[4..], "lounges");
    RoundTrip007(s);
    Fixed007Runs(s, Run(s, Up007).value);
  }

  /** Revision 007's operations after the fourth touch only the new table. */
  lemma Up007CreatesElsewhere()
    ensures forall i :: 0 <= i < |Up007[4..]| ==> Up007[4..][i].table == "lounge_subscriptions"
  {
    assert forall i :: 0 <= i < 6 ==> Up007[4..][i] == Up007[i + 4];
  }

  lemma Fixed007Runs(s: Schema, s3: Schema)
    requires "lounges" in s && KeysNameColumns(s["lounges"]) && "stripe_product_id" !in s["lounges"].columns
    requires "lounges" in s3 && s3["lounges"].foreignKeys == s["lounges"].foreignKeys
    requires "ix_lounges_stripe_product_id" in s3["lounges"].indexes
    requires s3["lounges"].indexes["ix_lounges_stripe_product_id"] == Index(["stripe_product_id"], false)
    requires Run(s3, Down007) == Some(s)
    ensures RunMySql(s3, Down007Fixed) == Some(s)
  {
    var t := "lounge_subscriptions";
    var drops, rest := Down007Parts();
    RunAppend(s3, drops + [DropTable(t)], rest);
    var y := s3 - {t};
    NewColumnIndexFree(s["lounges"], y["lounges"], "stripe_product_id", "ix_lounges_stripe_product_id");
    FreeIndexFirst(y, rest);
    TableFirstDowngrade(s3, t, drops, rest);
  }

  /** Revision 007's downgrade as index drops, the table drop and the
      `lounges` part the corrected downgrade keeps. */
  lemma Down007Parts() returns (drops: seq<Op>, rest: seq<Op>)
    ensures Down007 == drops + [DropTable("lounge_subscriptions")] + rest
    ensures Down007Fixed == [DropTable("lounge_subscriptions")] + rest
    ensures forall i :: 0 <= i < |drops| ==> drops[i].DropIndex? && drops[i].table == "lounge_subscriptions"
    ensures rest != [] && rest[0] == DropIndex("lounges", "ix_lounges_stripe_product_id")
    ensures forall i :: 1 <= i < |rest| ==> !rest[i].DropIndex?
  {
    drops, rest := Down007[..5], Down007[6..];
    assert forall i :: 0 <= i < 5 ==> drops[i] == Down007[i];
    assert Down007 == drops + [DropTable("lounge_subscriptions")] + rest;
  }

  // ---------------------------------------------------------------------
  // 008_add_lounge_id_to_notes
  // ---------------------------------------------------------------------

  const Up008: seq<Op> := [
    AddColumn("notes", "lounge_id", Nullable(Integer)),
    CreateIndex("notes", "ix_notes_lounge_id", LoungeIdIndex),
    CreateForeignKey("notes", "fk_notes_lounge_id", LoungeCascade)
  ]
  const Down008: seq<Op> := [
    DropForeignKey("notes", "fk_notes_lounge_id"),
    DropIndex("notes", "ix_notes_lounge_id"),
    DropColumn("notes", "lounge_id")
  ]

  lemma Mirrors008()
    ensures Mirrors(Up008, Down008)
  {
  }

  lemma RoundTrip008(s: Schema)
    requires WF(s) && Run(s, Up008).Some?
    ensures Run(Run(s, Up008).value, Down008) == Some(s)
  {
    Mirrors008();
    MirroredRoundTrip(s, Up008, Down008);
  }

  // ---------------------------------------------------------------------
  // 009_add_lounge_resources
  // ---------------------------------------------------------------------

  /** The table revision 009 creates. */
  const ResourceColumns: map<String, Column> := map[
    "id" := AutoId,
    "lounge_id" := NotNull(Integer),
    "file_id" := NotNull(Integer),
    "title" := NotNull(VarChar(255)),
    "description" := Nullable(Text),
    "uploaded_by_user_id" := NotNull(Integer),
    "created_at" := NotNullDefault(DateTime, "CURRENT_TIMESTAMP"),
    "updated_at" := NotNullDefault(DateTime, "CURRENT_TIMESTAMP ON UPDATE CURRENT_TIMESTAMP")]

  const ResourceKeys: map<String, ForeignKey> := map[
    "lounge_resources_ibfk_1" := LoungeCascade,
    "lounge_resources_ibfk_2" := ForeignKey(["file_id"], "files", ["id"], Cascade),
    "lounge_resources_ibfk_3" := ForeignKey(["uploaded_by_user_id"], "users", ["id"], NoAction)]

  const ResourceTable: Table := Table(ResourceColumns, map[
    "ix_lounge_resources_id" := Index(["id"], false),
    "ix_lounge_resources_lounge_id" := LoungeIdIndex], ResourceKeys, [])

  const Up009: seq<Op> := [
    CreateTable("lounge_resources", ResourceColumns, ResourceKeys),
    CreateIndex("lounge_resources", "ix_lounge_resources_id", Index(["id"], false)),
    CreateIndex("lounge_resources", "ix_lounge_resources_lounge_id", LoungeIdIndex)
  ]
  const Down009: seq<Op> := [
    DropIndex("lounge_resources", "ix_lounge_resources_lounge_id"),
    DropIndex("lounge_resources", "ix_lounge_resources_id"),
    DropTable("lounge_resources")
  ]

  lemma Mirrors009()
    ensures Mirrors(Up009, Down009)
  {
  }

  lemma RoundTrip009(s: Schema)
    requires WF(s) && Run(s, Up009).Some?
    ensures Run(Run(s, Up009).value, Down009) == Some(s)
  {
    Mirrors009();
    MirroredRoundTrip(s, Up009, Down009);
  }

  /** The table revision 009's upgrade creates, with its two indexes. */
  lemma After009(s: Schema)
    requires Run(s, Up009).Some?
    ensures "lounge_resources" in Run(s, Up009).value
    ensures Run(s, Up009).value["lounge_resources"] == ResourceTable
  {
    RunStep(s, Up009);
    var a := Apply(s, Up009[0]).value;
    RunStep(a, Up009[1..]);
    var b := Apply(a, Up009[1]).value;
    assert Up009[1..][1..] == [Up009[2]];
    RunSingle(b, Up009[2]);
  }

  /** MySQL refuses revision 009's downgrade at its first operation:
      `ix_lounge_resources_lounge_id` alone serves the key on
      `lounge_id`. */
  lemma Down009RefusedAsWritten(s: Schema)
    requires Run(s, Up009).Some?
    ensures RunMySql(Run(s, Up009).value, Down009).None?
  {
    After009(s);
    var tb := ResourceTable;
    assert tb.indexes.Keys == {"ix_lounge_resources_id", "ix_lounge_resources_lounge_id"};
    assert Serves(LoungeIdIndex, LoungeCascade);
    assert tb.foreignKeys["lounge_resources_ibfk_1"] == LoungeCascade;
    assert tb.indexes["ix_lounge_resources_id"].columns[..1] == ["id"];
    assert !Serves(tb.indexes["ix_lounge_resources_id"], LoungeCascade);
    assert NeededByForeignKey(tb, "ix_lounge_resources_lounge_id");
  }

  /** The downgrade reduced to dropping the table, its keys and indexes
      with it. */
  const Down009Fixed: seq<Op> := [DropTable("lounge_resources")]

  /** MySQL runs the corrected downgrade, and it restores the schema. */
  lemma RoundTrip009Fixed(s: Schema)
    requires WF(s) && Run(s, Up009).Some?
    ensures RunMySql(Run(s, Up009).value, Down009Fixed) == Some(s)
  {
    RoundTrip009(s);
    var s3 := Run(s, Up009).value;
    var t := "lounge_resources";
    var drops := Down009[..2];
    assert Down009 == drops + [DropTable(t)] + [];
    assert Down009Fixed == [DropTable(t)] + [];
    TableFirstDowngrade(s3, t, drops, []);
  }

  // ---------------------------------------------------------------------
  // 010: public chatbot tables and the default configuration row
  // ---------------------------------------------------------------------

  const ConfigTable: String := "public_chatbot_config"

  const ConfigColumns: map<String, Column> := map[
    "id" := AutoId,
    "name" := NotNullDefault(VarChar(100), "Prompterly Assistant"),
    "welcome_message" := NotNullDefault(Text, "Hi! How can I help you today?"),
    "system_prompt" := Nullable(Text),
    "input_placeholder" := NotNullDefault(VarChar(255), "What's on your mind?"),
    "header_subtitle" := Nullable(Text),
    "is_enabled" := NotNullDefault(Boolean, "true"),
    "avatar_url" := Nullable(VarChar(500)),
    "created_at" := NotNullDefault(DateTime, "now()"),
    "updated_at" := NotNullDefault(DateTime, "now()")]

  /** The columns the seeding INSERT names, with its values. */
  const SeedValues: Row := map[
    "name" := Lit("Prompterly Assistant"),
    "welcome_message" := Lit("Hi! How can I help you?"),
    "system_prompt" := Lit("You are a helpful assistant for Prompterly, an AI coaching platform. Help users understand what Prompterly offers and answer their questions about the platform. Be friendly, helpful, and concise."),
    "input_placeholder" := Lit("What's on your mind?"),
    "header_subtitle" := Lit("Ask me anything about Prompterly"),
    "is_enabled" := Lit("true")]

  /** The upgrade up to, not including, the INSERT; after its first
      operation, the rest never rewrites the configuration table's rows. */
  const Create010: seq<Op> := [
    CreateTable(ConfigTable, ConfigColumns, map[]),
    CreateIndex(ConfigTable, "ix_public_chatbot_config_id", Index(["id"], false)),
    CreateTable("public_chat_messages", map[
      "id" := AutoId,
      "session_id" := NotNull(VarChar(100)),
      "role" := NotNull(VarChar(20)),
      "content" := NotNull(Text),
      "created_at" := NotNullDefault(DateTime, "now()")], map[]),
    CreateIndex("public_chat_messages", "ix_public_chat_messages_id", Index(["id"], false)),
    CreateIndex("public_chat_messages", "ix_public_chat_messages_session_id", Index(["session_id"], false))
  ]

  const Up010: seq<Op> := Create010 + [InsertRow(ConfigTable, SeedValues)]

  const Down010: seq<Op> := [
    DropIndex("public_chat_messages", "ix_public_chat_messages_session_id"),
    DropIndex("public_chat_messages", "ix_public_chat_messages_id"),
    DropTable("public_chat_messages"),
    DropIndex(ConfigTable, "ix_public_chatbot_config_id"),
    DropTable(ConfigTable)
  ]

  lemma Create010Shape()
    ensures Create010 == [Create010[0]] + Create010[1..]
    ensures Create010[0] == CreateTable(ConfigTable, ConfigColumns, map[])
    ensures forall i :: 0 <= i < |Create010[1..]| ==> KeepsRows(Create010[1..][i], ConfigTable)
  {
  }

  /** The upgrade up to the INSERT creates the configuration table, and
      leaves it without rows. */
  lemma Create010Empty(s: Schema)
    requires Run(s, Create010).Some?
    ensures ConfigTable !in s
    ensures ConfigTable in Run(s, Create010).value
    ensures Run(s, Create010).value[ConfigTable].rows == []
    ensures Run(s, Create010).value[ConfigTable].columns == ConfigColumns
  {
    Create010Shape();
    var rest := Create010[1..];
    RunAppend(s, [Create010[0]], rest);
    RunSingle(s, Create010[0]);
    var s1 := Apply(s, Create010[0]).value;
    assert s1[ConfigTable] == Table(ConfigColumns, map[], map[], []);
    RunKeepsRows(s1, rest, ConfigTable);
  }

  /** The upgrade leaves exactly one configuration row: the seeded values,
      id 1, and the column defaults elsewhere. */
  lemma Upgrade010SeedsOneConfig(s: Schema)
    requires Run(s, Up010).Some?
    ensures ConfigTable in Run(s, Up010).value
    ensures Run(s, Up010).value[ConfigTable].rows == [FullRow(ConfigColumns, SeedValues, 1)]
  {
    var insert := InsertRow(ConfigTable, SeedValues);
    RunAppend(s, Create010, [insert]);
    Create010Empty(s);
    var sA := Run(s, Create010).value;
    RunSingle(sA, insert);
    InsertAppends(sA, ConfigTable, SeedValues);
    assert [] + [FullRow(ConfigColumns, SeedValues, 1)] == [FullRow(ConfigColumns, SeedValues, 1)];
  }

  /** The row the upgrade seeds is enabled and carries the INSERT's
      greeting, not the column default's. */
  lemma SeededConfigValues()
    ensures var r := FullRow(ConfigColumns, SeedValues, 1);
      r["id"] == Lit("1") && r["is_enabled"] == Lit("true") &&
      r["welcome_message"] == Lit("Hi! How can I help you?") &&
      r["avatar_url"] == Null && r["created_at"] == Lit("now()")
  {
    assert NatToString(1) == "1";
  }

  lemma Mirrors010()
    ensures Mirrors(Create010, Down010)
    ensures forall i :: 0 <= i < |Down010| ==> Dropping(Down010[i])
  {
  }

  /** The downgrade only drops indexes and tables, so it ends the same
      whatever rows the configuration table held, once it drops that table. */
  lemma DowngradeIgnoresSeed(sA: Schema, sI: Schema, s0: Schema)
    requires SameBut(sA, sI, ConfigTable)
    requires Run(sA, Down010) == Some(s0) && ConfigTable !in s0
    ensures Run(sI, Down010) == Some(s0)
  {
    Mirrors010();
    RunSameBut(sA, sI, ConfigTable, Down010);
    SameButAbsent(s0, Run(sI, Down010).value, ConfigTable);
  }

  /** The downgrade drops both tables, the seeded row with them, and
      restores the schema. */
  lemma RoundTrip010(s: Schema)
    requires WF(s) && Run(s, Up010).Some?
    ensures Run(Run(s, Up010).value, Down010) == Some(s)
  {
    var insert := InsertRow(ConfigTable, SeedValues);
    RunAppend(s, Create010, [insert]);
    Create010Empty(s);
    var sA := Run(s, Create010).value;
    Mirrors010();
    MirroredRoundTrip(s, Create010, Down010);
    RunSingle(sA, insert);
    InsertSameBut(sA, ConfigTable, SeedValues);
    DowngradeIgnoresSeed(sA, Apply(sA, insert).value, s);
  }

  // ---------------------------------------------------------------------
  // 011: retrieval settings on the chatbot configuration
  // ---------------------------------------------------------------------

  const Up011: seq<Op> := [
    AddColumn(ConfigTable, "system_prompt_embedding", Nullable(Json)),
    AddColumn(ConfigTable, "embedding_model", Nullable(VarChar(100))),
    AddColumn(ConfigTable, "use_rag", NotNullDefault(Boolean, "true")),
    AddColumn(ConfigTable, "rag_similarity_threshold", NotNullDefault(Integer, "70"))
  ]
  const Down011: seq<Op> := [
    DropColumn(ConfigTable, "rag_similarity_threshold"),
    DropColumn(ConfigTable, "use_rag"),
    DropColumn(ConfigTable, "embedding_model"),
    DropColumn(ConfigTable, "system_prompt_embedding")
  ]

  lemma Mirrors011()
    ensures Mirrors(Up011, Down011)
  {
  }

  lemma RoundTrip011(s: Schema)
    requires WF(s) && Run(s, Up011).Some?
    ensures Run(Run(s, Up011).value, Down011) == Some(s)
  {
    Mirrors011();
    MirroredRoundTrip(s, Up011, Down011);
  }

  // ---------------------------------------------------------------------
  // 012: Stripe customer id on users
  // ---------------------------------------------------------------------

  const Up012: seq<Op> := [
    AddColumn("users", "stripe_customer_id", Nullable(VarChar(255))),
    CreateIndex("users", "ix_users_stripe_customer_id", Index(["stripe_customer_id"], false))
  ]
  const Down012: seq<Op> := [
    DropIndex("users", "ix_users_stripe_customer_id"),
    DropColumn("users", "stripe_customer_id")
  ]

  lemma Mirrors012()
    ensures Mirrors(Up012, Down012)
  {
  }

  lemma RoundTrip012(s: Schema)
    requires WF(s) && Run(s, Up012).Some?
    ensures Run(Run(s, Up012).value, Down012) == Some(s)
  {
    Mirrors012();
    MirroredRoundTrip(s, Up012, Down012);
  }

  // ---------------------------------------------------------------------
  // 013: lounge about text and brand colour
  // ---------------------------------------------------------------------

  const Up013: seq<Op> := [
    AddColumn("lounges", "about", Nullable(Text)),
    AddColumn("lounges", "brand_color", Column(VarChar(7), true, Some("#9ECCF2"), false))
  ]
  const Down013: seq<Op> := [
    DropColumn("lounges", "brand_color"),
    DropColumn("lounges", "about")
  ]

  lemma Mirrors013()
    ensures Mirrors(Up013, Down013)
  {
  }

  lemma RoundTrip013(s: Schema)
    requires WF(s) && Run(s, Up013).Some?
    ensures Run(Run(s, Up013).value, Down013) == Some(s)
  {
    Mirrors013();
    MirroredRoundTrip(s, Up013, Down013);
  }

  // ---------------------------------------------------------------------
  // 014: newsletter subscribers
  // ---------------------------------------------------------------------

  const Up014: seq<Op> := [
    CreateTable("newsletter_subscribers", map[
      "id" := AutoId,
      "email" := NotNull(VarChar(255)),
      "status" := NotNullDefault(VarChar(20), "active"),
      "subscribed_at" := NotNullDefault(DateTime, "now()"),
      "unsubscribed_at" := Nullable(DateTime),
      "ip_address" := Nullable(VarChar(45)),
      "source" := NotNullDefault(VarChar(100), "footer")], map[]),
    CreateIndex("newsletter_subscribers", "ix_newsletter_subscribers_id", Index(["id"], false)),
    CreateIndex("newsletter_subscribers", "ix_newsletter_subscribers_email", Index(["email"], true)),
    CreateIndex("newsletter_subscribers", "ix_newsletter_subscribers_status", Index(["status"], false))
  ]
  const Down014: seq<Op> := [
    DropIndex("newsletter_subscribers", "ix_newsletter_subscribers_status"),
    DropIndex("newsletter_subscribers", "ix_newsletter_subscribers_email"),
    DropIndex("newsletter_subscribers", "ix_newsletter_subscribers_id"),
    DropTable("newsletter_subscribers")
  ]

  lemma Mirrors014()
    ensures Mirrors(Up014, Down014)
  {
  }

  lemma RoundTrip014(s: Schema)
    requires WF(s) && Run(s, Up014).Some?
    ensures Run(Run(s, Up014).value, Down014) == Some(s)
  {
    Mirrors014();
    MirroredRoundTrip(s, Up014, Down014);
  }
}
