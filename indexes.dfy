/** The index check run as a migration hook
    (`migration/hook/common/fix-indexes.py`): it reports the hand-made
    indexes of installed modules that are absent, computes the index each
    stored field of the ORM asks for, and drops and recreates every one
    whose definition in the database differs.  The catalogue queries are
    inputs. */
module Indexes {
  import opened Wrappers
  import opened PyStr

  // ---------------------------------------------------------------------
  // Extensions

  /** Whether the database's `unaccent` function can be used (an IntEnum in
      the source: 0, 1, 2). */
  datatype FunctionStatus = Missing | Present | Indexable {
    function Rank(): int {
      match this
      case Missing => 0
      case Present => 1
      case Indexable => 2
    }
    /** Python truthiness of the IntEnum: only MISSING is falsy. */
    predicate Truthy() { Rank() != 0 }
  }

  /** `has_unaccent`, given the `provolatile` of the row found, if any. */
  function HasUnaccent(row: Option<string>): FunctionStatus {
    match row
    case None => Missing
    case Some(v) => if v == "i" then Indexable else Present
  }

  /** No row means missing, an immutable function is indexable and any
      other is present; the ranks are ordered missing < present <
      indexable, and only a found function is truthy. */
  lemma UnaccentSpec(row: Option<string>)
    ensures HasUnaccent(row) == Missing <==> row.None?
    ensures HasUnaccent(row) == Indexable <==> row == Some("i")
    ensures HasUnaccent(row) == Present <==> row.Some? && row.value != "i"
    ensures HasUnaccent(row).Truthy() <==> row.Some?
    ensures Missing.Rank() < Present.Rank() < Indexable.Rank()
  {
  }

  // ---------------------------------------------------------------------
  // Index statements

  /** The statement up to the opening parenthesis of the expressions. */
  function IndexHead(indexname: string, tablename: string, indexMethod: string): string {
    "CREATE INDEX " + indexname + " ON public." + tablename + " USING " + indexMethod + " ("
  }

  /** `generate_index_expr`. */
  function GenerateIndexExpr(indexname: string, tablename: string, expressions: seq<string>,
                             indexMethod: string, where: string): string
  {
    var clause := if where != "" then " WHERE (" + where + ")" else "";
    IndexHead(indexname, tablename, indexMethod) + Join(", ", expressions) + ")" + clause
  }

  /** The statement without a condition, followed by ` WHERE (...)` exactly
      when there is one; without one it ends with the closing parenthesis of
      the expressions. */
  lemma GenerateIndexExprSpec(indexname: string, tablename: string, expressions: seq<string>,
                              indexMethod: string, where: string)
    ensures var base := GenerateIndexExpr(indexname, tablename, expressions, indexMethod, "");
            && StartsWith(base, IndexHead(indexname, tablename, indexMethod))
            && EndsWith(base, ")")
            && GenerateIndexExpr(indexname, tablename, expressions, indexMethod, where) ==
               (if where == "" then base else base + " WHERE (" + where + ")")
  {
    var head := IndexHead(indexname, tablename, indexMethod);
    var base := GenerateIndexExpr(indexname, tablename, expressions, indexMethod, "");
    var body := Join(", ", expressions) + ")";
    assert base == head + body;
    assert base[..|head|] == head;
    assert base[|base| - 1..] == ")";
  }

  /** A single expression is the whole argument list. */
  lemma GenerateOne(indexname: string, tablename: string, e: string, indexMethod: string, where: string)
    ensures GenerateIndexExpr(indexname, tablename, [e], indexMethod, where) ==
            IndexHead(indexname, tablename, indexMethod) + e + ")" + (if where != "" then " WHERE (" + where + ")" else "")
  {
    assert Join(", ", [e]) == e;
  }

  /** `get_unaccent_wrapper`. */
  function UnaccentWrapper(x: string): (r: string)
    ensures StartsWith(r, "unaccent((") && EndsWith(r, ")::text)")
    ensures |r| == |x| + 18 && r[10..|r| - 8] == x
  {
    var r := "unaccent((" + x + ")::text)";
    assert r[10..|r| - 8] == x;
    r
  }

  // ---------------------------------------------------------------------
  // Expected indexes

  /** The `index` attribute of a field; `Other` stands for any value the
      check at line 169 rejects. */
  datatype IndexAttr = Btree | BtreeNotNull | Trigram | IndexTrue | IndexFalse | IndexNone | Other(value: string) {
    predicate Allowed() { !Other? }
    predicate Truthy() {
      match this
      case IndexFalse => false
      case IndexNone => false
      case Other(v) => v != ""
      case _ => true
    }
  }

  datatype Field = Field(name: string, columnType: bool, store: bool, translate: bool, index: IndexAttr, unaccent: bool)

  datatype Model = Model(table: string, auto: bool, isAbstract: bool, fields: seq<Field>)

  /** One entry of `expected`: the index name, the table, the field and its
      `unaccent` flag. */
  datatype Expect = Expect(indexname: string, table: string, field: Field, unaccent: bool)

  /** The name the ORM gives a field's index, cut to the database's limit
      on identifier length. */
  function IndexName(table: string, field: string, maxLen: nat): string {
    Take(table + "_" + field + "_index", maxLen)
  }

  lemma IndexNameSpec(table: string, field: string, maxLen: nat)
    ensures |IndexName(table, field, maxLen)| <= maxLen
    ensures StartsWith(table + "_" + field + "_index", IndexName(table, field, maxLen))
    ensures |table + "_" + field + "_index"| <= maxLen ==> IndexName(table, field, maxLen) == table + "_" + field + "_index"
  {
  }

  predicate Indexed(m: Model) { m.auto && !m.isAbstract }

  predicate Columned(f: Field) { f.columnType && f.store }

  function FieldEntries(m: Model, fields: seq<Field>, maxLen: nat): seq<Expect> {
    if fields == [] then []
    else
      var f := fields[0];
      var rest := FieldEntries(m, fields[1..], maxLen);
      if Columned(f) then [Expect(IndexName(m.table, f.name, maxLen), m.table, f, f.unaccent)] + rest else rest
  }

  /** `expected` (lines 146-158): the fields of the models in order. */
  function ExpectedIndexes(models: seq<Model>, maxLen: nat): seq<Expect> {
    if models == [] then []
    else
      var m := models[0];
      (if Indexed(m) then FieldEntries(m, m.fields, maxLen) else []) + ExpectedIndexes(models[1..], maxLen)
  }

  lemma {:induction false} FieldEntriesSpec(m: Model, fields: seq<Field>, maxLen: nat, e: Expect)
    ensures e in FieldEntries(m, fields, maxLen) <==>
            e.table == m.table && e.field in fields && Columned(e.field) &&
            e.indexname == IndexName(m.table, e.field.name, maxLen) && e.unaccent == e.field.unaccent
    decreases |fields|
  {
    if fields != [] {
      FieldEntriesSpec(m, fields[1..], maxLen, e);
      assert fields == [fields[0]] + fields[1..];
    }
  }

  /** An entry is expected iff it comes from a stored, column-typed field
      of an automatic, non-abstract model, under the field's index name. */
  lemma {:induction false} ExpectedSpec(models: seq<Model>, maxLen: nat, e: Expect)
    ensures e in ExpectedIndexes(models, maxLen) <==>
            exists m :: m in models && Indexed(m) && e.table == m.table && e.field in m.fields && Columned(e.field) &&
                        e.indexname == IndexName(m.table, e.field.name, maxLen) && e.unaccent == e.field.unaccent
  {
    if models != [] {
      var m := models[0];
      ExpectedSpec(models[1..], maxLen, e);
      FieldEntriesSpec(m, m.fields, maxLen, e);
      assert models == [m] + models[1..];
    }
  }

  // ---------------------------------------------------------------------
  // The expected definition of one index

  /** Lines 172-178 and 183-186: the field asks for an index that this
      database can have. */
  predicate Wanted(f: Field, hasTrigram: bool) {
    f.index.Truthy() && ((!f.translate && f.index != Trigram) || (f.index == Trigram && hasTrigram))
  }

  /** The indexed expression of a trigram index (lines 187-196). */
  function TrigramColumn(f: Field, unaccent: bool, status: FunctionStatus): string {
    var c1 := if f.translate then "(jsonb_path_query_array(" + f.name + ", '$.*'::jsonpath)::text)" else f.name;
    if unaccent && status.Truthy() && status == Indexable then UnaccentWrapper(c1) else c1
  }

  /** The definition the field's index should have (lines 187-208). */
  function ExpectedDefinition(e: Expect, status: FunctionStatus): string {
    var f := e.field;
    if f.index == Trigram then
      GenerateIndexExpr(e.indexname, e.table, [TrigramColumn(f, e.unaccent, status) + " gin_trgm_ops"], "gin", "")
    else
      GenerateIndexExpr(e.indexname, e.table, [f.name], "btree", if f.index == BtreeNotNull then f.name + " IS NOT NULL" else "")
  }

  /** A trigram index is a gin index over the column with the trigram
      operator class and no condition; a translated column is read through
      `jsonb_path_query_array`, and `unaccent` is applied only to a field
      that asks for it when the function is indexable. */
  lemma TrigramDefinition(e: Expect, status: FunctionStatus)
    requires e.field.index == Trigram
    ensures var col := TrigramColumn(e.field, e.unaccent, status);
            var inner := if e.field.translate then "(jsonb_path_query_array(" + e.field.name + ", '$.*'::jsonpath)::text)" else e.field.name;
            && ExpectedDefinition(e, status) == IndexHead(e.indexname, e.table, "gin") + col + " gin_trgm_ops)"
            && (e.unaccent && status == Indexable ==> col == UnaccentWrapper(inner))
            && (!(e.unaccent && status == Indexable) ==> col == inner)
  {
    var col := TrigramColumn(e.field, e.unaccent, status);
    GenerateOne(e.indexname, e.table, col + " gin_trgm_ops", "gin", "");
  }

  /** Any other index is a btree over the column, with the condition
      `col IS NOT NULL` exactly for `btree_not_null`. */
  lemma BtreeDefinition(e: Expect, status: FunctionStatus)
    requires e.field.index != Trigram
    ensures ExpectedDefinition(e, status) ==
            IndexHead(e.indexname, e.table, "btree") + e.field.name + ")" +
            (if e.field.index == BtreeNotNull then " WHERE (" + e.field.name + " IS NOT NULL)" else "")
  {
    GenerateOne(e.indexname, e.table, e.field.name, "btree", if e.field.index == BtreeNotNull then e.field.name + " IS NOT NULL" else "");
  }

  // ---------------------------------------------------------------------
  // Checking one index against the database

  /** The index definitions in the database (pg_indexes) and the
      statements run so far. */
  datatype Db = Db(defs: map<string, string>, statements: seq<string>)

  /** Lines 164-214 for one entry as the script is written: None where it
      raises, both for an `index` value the assertion rejects and for a
      wanted index that does not exist, whose definition query finds no
      row. */
  function CheckAsWritten(db: Db, e: Expect, hasTrigram: bool, status: FunctionStatus): Option<Db> {
    if !e.field.index.Allowed() then None
    else if !Wanted(e.field, hasTrigram) then Some(db)
    else if e.indexname !in db.defs then None
    else
      var want := ExpectedDefinition(e, status);
      if db.defs[e.indexname] != want then
        Some(Db(db.defs[e.indexname := want], db.statements + ["DROP INDEX " + e.indexname, want]))
      else Some(db)
  }

  /** Lines 164-214 for one entry as evidently intended: a wanted index
      that is missing is created. */
  function Check(db: Db, e: Expect, hasTrigram: bool, status: FunctionStatus): Option<Db> {
    if !e.field.index.Allowed() then None
    else if !Wanted(e.field, hasTrigram) then Some(db)
    else
      var want := ExpectedDefinition(e, status);
      if e.indexname !in db.defs then
        Some(Db(db.defs[e.indexname := want], db.statements + [want]))
      else if db.defs[e.indexname] != want then
        Some(Db(db.defs[e.indexname := want], db.statements + ["DROP INDEX " + e.indexname, want]))
      else Some(db)
  }

  /** After a check the wanted index has its expected definition, an
      unwanted one is left alone, other indexes are untouched, and
      statements are only appended; a definition that differs is dropped
      before it is recreated. */
  lemma CheckSpec(db: Db, e: Expect, hasTrigram: bool, status: FunctionStatus)
    ensures Check(db, e, hasTrigram, status).None? <==> !e.field.index.Allowed()
    ensures Check(db, e, hasTrigram, status).Some? ==>
            var db' := Check(db, e, hasTrigram, status).value;
            && (Wanted(e.field, hasTrigram) ==> e.indexname in db'.defs && db'.defs[e.indexname] == ExpectedDefinition(e, status))
            && (!Wanted(e.field, hasTrigram) ==> db' == db)
            && (forall n :: n != e.indexname ==> (n in db'.defs <==> n in db.defs) && (n in db.defs ==> db'.defs[n] == db.defs[n]))
            && db'.statements[..|db.statements|] == db.statements
            && (e.indexname in db.defs && db.defs[e.indexname] != ExpectedDefinition(e, status) && Wanted(e.field, hasTrigram) ==>
                db'.statements == db.statements + ["DROP INDEX " + e.indexname, ExpectedDefinition(e, status)])
  {
  }

  /** A second check of the same entry changes nothing. */
  lemma CheckIdempotent(db: Db, e: Expect, hasTrigram: bool, status: FunctionStatus)
    requires Check(db, e, hasTrigram, status).Some?
    ensures var db' := Check(db, e, hasTrigram, status).value;
            Check(db', e, hasTrigram, status) == Some(db')
  {
  }

  /** Wherever the script as written completes a check, the corrected check
      does the same. */
  lemma CheckAgrees(db: Db, e: Expect, hasTrigram: bool, status: FunctionStatus)
    requires CheckAsWritten(db, e, hasTrigram, status).Some?
    ensures Check(db, e, hasTrigram, status) == CheckAsWritten(db, e, hasTrigram, status)
  {
  }

  /** As written, a stored char field with a plain btree index whose index
      is absent stops the script (its warning "Missing index" is followed
      by a definition query on the missing index) instead of creating it. */
  lemma MissingIndexStops()
    ensures var f := Field("ref", true, true, false, Btree, false);
            var e := Expect("sale_order_ref_index", "sale_order", f, false);
            var db := Db(map[], []);
            var create := ExpectedDefinition(e, Missing);
            && CheckAsWritten(db, e, false, Missing).None?
            && create == IndexHead("sale_order_ref_index", "sale_order", "btree") + "ref" + ")"
            && Check(db, e, false, Missing) == Some(Db(map["sale_order_ref_index" := create], [create]))
  {
    var f := Field("ref", true, true, false, Btree, false);
    var e := Expect("sale_order_ref_index", "sale_order", f, false);
    BtreeDefinition(e, Missing);
    assert Wanted(f, false);
    var create := ExpectedDefinition(e, Missing);
    var none: map<string, string> := map[];
    var nothing: seq<string> := [];
    assert "sale_order_ref_index" !in none;
    assert nothing + [create] == [create];
    assert CheckAsWritten(Db(none, nothing), e, false, Missing).None?;
    assert Check(Db(none, nothing), e, false, Missing) == Some(Db(none["sale_order_ref_index" := create], nothing + [create]));
  }

  /** The names reported as missing (lines 172-180): wanted indexes absent
      from the indexes found before the loop. */
  predicate ReportedMissing(e: Expect, existing: set<string>, hasTrigram: bool) {
    Wanted(e.field, hasTrigram) && e.indexname !in existing
  }

  /** Lines 159-163: the names of `es` that pg_indexes lists before the
      loop starts. */
  function ExistingNames(es: seq<Expect>, defs: map<string, string>): (r: set<string>)
    ensures forall k :: 0 <= k < |es| ==> (es[k].indexname in r <==> es[k].indexname in defs)
  {
    set k | 0 <= k < |es| && es[k].indexname in defs :: es[k].indexname
  }

  /** The names reported missing by a run over `es`, in order. */
  function MissingNames(es: seq<Expect>, existing: set<string>, hasTrigram: bool): seq<string> {
    if es == [] then []
    else
      var e := es[|es| - 1];
      MissingNames(es[..|es| - 1], existing, hasTrigram) + (if ReportedMissing(e, existing, hasTrigram) then [e.indexname] else [])
  }

  /** A name is reported iff some entry wants an index under that name
      that did not exist before the run. */
  lemma {:induction false} MissingNamesSpec(es: seq<Expect>, existing: set<string>, hasTrigram: bool, x: string)
    ensures x in MissingNames(es, existing, hasTrigram) <==>
            exists k :: 0 <= k < |es| && ReportedMissing(es[k], existing, hasTrigram) && x == es[k].indexname
    ensures x in MissingNames(es, existing, hasTrigram) ==> x !in existing
  {
    if es != [] {
      var init := es[..|es| - 1];
      MissingNamesSpec(init, existing, hasTrigram, x);
      assert forall k :: 0 <= k < |init| ==> init[k] == es[k];
    }
  }

  // ---------------------------------------------------------------------
  // The loops of the script

  /** The hand-made indexes whose absence is reported, by module, in the
      order of the source's table. */
  function ManualIndexes(): seq<(string, seq<string>)> {
    [ ("base", ["ir_attachment_res_idx", "ir_model_data_model_res_id_index",
                "ir_ui_view_custom_user_id_ref_id", "ir_ui_view_model_type_inherit_id"]),
      ("crm", ["crm_lead_user_id_team_id_type_index", "crm_lead_create_date_team_id_idx"]),
      ("account", ["account_move_line_partner_id_ref_idx", "account_move_line_date_name_id_idx"]),
      ("sale", ["sale_order_date_order_id_idx"]),
      ("project", ["mail_tracking_value_mail_message_id_old_value_integer_task_stage",
                   "mail_message_date_res_id_id_for_burndown_chart"]),
      ("hr_work_entry", ["hr_work_entry_date_start_date_stop_index"]),
      ("hr_leave", ["hr_leave_date_to_date_from_index"]),
      ("l10n_in", ["account_move_line_move_product_index"]) ]
  }

  /** Lines 133-141: the indexes of installed modules that do not exist, in
      the order of the table. */
  method ReportManual(table: seq<(string, seq<string>)>, installed: set<string>, present: set<string>)
    returns (absent: seq<string>)
    ensures forall x :: x in absent <==>
              exists k :: 0 <= k < |table| && table[k].0 in installed && x in table[k].1 && x !in present
  {
    absent := [];
    var k := 0;
    while k < |table|
      invariant 0 <= k <= |table|
      invariant forall x :: x in absent <==>
                  exists k' :: 0 <= k' < k && table[k'].0 in installed && x in table[k'].1 && x !in present
    {
      var (moduleName, names) := table[k];
      if moduleName in installed {
        var j := 0;
        ghost var before := absent;
        while j < |names|
          invariant 0 <= j <= |names|
          invariant forall x :: x in absent <==> x in before || (x in names[..j] && x !in present)
        {
          if names[j] !in present {
            absent := absent + [names[j]];
          }
          assert names[..j + 1] == names[..j] + [names[j]];
          j := j + 1;
        }
        assert names[..j] == names;
      }
      k := k + 1;
    }
  }

  /** The database the script works on. */
  class Catalog {
    /** pg_indexes: index name to definition */
    var defs: map<string, string>
    /** the DROP and CREATE statements executed */
    var statements: seq<string>

    constructor(defs: map<string, string>)
      ensures this.defs == defs && statements == []
    {
      this.defs := defs;
      statements := [];
    }

    /** Lines 187-214 for one entry the loop checks: the definition is
        queried and, where it differs, dropped and recreated (created when
        missing). */
    method CheckOne(e: Expect, hasTrigram: bool, status: FunctionStatus)
      requires e.field.index.Allowed()
      modifies this
      ensures Check(old(Db(defs, statements)), e, hasTrigram, status) == Some(Db(defs, statements))
    {
      if Wanted(e.field, hasTrigram) {
        var want := ExpectedDefinition(e, status);
        if e.indexname !in defs {
          statements := statements + [want];
          defs := defs[e.indexname := want];
        } else if defs[e.indexname] != want {
          statements := statements + ["DROP INDEX " + e.indexname, want];
          defs := defs[e.indexname := want];
        }
      }
    }

    /** The query of lines 159-163 and the loop of lines 164-214 over
        `expected`, creating missing indexes as intended: returns whether
        it ran to the end, and the names reported missing.  On success the
        database is the result of checking every entry in turn. */
    method CheckAll(expected: seq<Expect>, hasTrigram: bool, status: FunctionStatus)
      returns (ok: bool, missing: seq<string>)
      modifies this
      ensures ok <==> forall k :: 0 <= k < |expected| ==> expected[k].field.index.Allowed()
      ensures ok ==> Checks(Db(old(defs), old(statements)), expected, hasTrigram, status) == Some(Db(defs, statements))
      ensures ok ==> missing == MissingNames(expected, ExistingNames(expected, old(defs)), hasTrigram)
    {
      var existing := ExistingNames(expected, defs);
      ok, missing := CheckEach(expected, existing, hasTrigram, status);
    }

    /** The loop of lines 164-214, given the names `existing` that the
        query before it found. */
    method CheckEach(expected: seq<Expect>, existing: set<string>, hasTrigram: bool, status: FunctionStatus)
      returns (ok: bool, missing: seq<string>)
      modifies this
      ensures ok <==> forall k :: 0 <= k < |expected| ==> expected[k].field.index.Allowed()
      ensures ok ==> Checks(Db(old(defs), old(statements)), expected, hasTrigram, status) == Some(Db(defs, statements))
      ensures ok ==> missing == MissingNames(expected, existing, hasTrigram)
    {
      missing := [];
      var i := 0;
      while i < |expected|
        invariant 0 <= i <= |expected|
        invariant forall k :: 0 <= k < i ==> expected[k].field.index.Allowed()
        invariant Checks(Db(old(defs), old(statements)), expected, hasTrigram, status) ==
                  Checks(Db(defs, statements), expected[i..], hasTrigram, status)
        invariant missing == MissingNames(expected[..i], existing, hasTrigram)
      {
        var e := expected[i];
        assert expected[i..][0] == e && expected[i..][1..] == expected[i + 1..];
        ChecksStep(Db(defs, statements), expected[i..], hasTrigram, status);
        if !e.field.index.Allowed() {
          return false, missing;
        }
        if ReportedMissing(e, existing, hasTrigram) {
          missing := missing + [e.indexname];
        }
        CheckOne(e, hasTrigram, status);
        assert expected[..i + 1][..i] == expected[..i];
        i := i + 1;
      }
      assert expected[..i] == expected;
      return true, missing;
    }
  }

  /** Checking the entries in turn. */
  function Checks(db: Db, es: seq<Expect>, hasTrigram: bool, status: FunctionStatus): Option<Db>
    decreases |es|
  {
    if es == [] then Some(db)
    else
      match Check(db, es[0], hasTrigram, status)
      case None => None
      case Some(db') => Checks(db', es[1..], hasTrigram, status)
  }

  lemma ChecksStep(db: Db, es: seq<Expect>, hasTrigram: bool, status: FunctionStatus)
    requires es != []
    ensures Checks(db, es, hasTrigram, status) ==
            match Check(db, es[0], hasTrigram, status)
            case None => None
            case Some(db') => Checks(db', es[1..], hasTrigram, status)
  {
  }

  /** After a complete run every wanted index has the definition of the
      last entry that wants it; the run fails exactly when some entry has
      an `index` value the assertion rejects. */
  lemma {:induction false} ChecksLast(db: Db, es: seq<Expect>, hasTrigram: bool, status: FunctionStatus, j: nat)
    requires Checks(db, es, hasTrigram, status).Some?
    requires j < |es| && Wanted(es[j].field, hasTrigram)
    requires forall k :: j < k < |es| && es[k].indexname == es[j].indexname ==> !Wanted(es[k].field, hasTrigram)
    ensures var db' := Checks(db, es, hasTrigram, status).value;
            es[j].indexname in db'.defs && db'.defs[es[j].indexname] == ExpectedDefinition(es[j], status)
    decreases |es|
  {
    ChecksStep(db, es, hasTrigram, status);
    var c := Check(db, es[0], hasTrigram, status).value;
    if j == 0 {
      CheckSpec(db, es[0], hasTrigram, status);
      ChecksKeep(c, es[1..], hasTrigram, status, es[0].indexname);
    } else {
      forall k | j - 1 < k < |es[1..]| && es[1..][k].indexname == es[1..][j - 1].indexname
        ensures !Wanted(es[1..][k].field, hasTrigram)
      {
        assert es[1..][k] == es[k + 1];
      }
      ChecksLast(c, es[1..], hasTrigram, status, j - 1);
    }
  }

  /** Entries that do not want a given index leave its definition alone. */
  lemma {:induction false} ChecksKeep(db: Db, es: seq<Expect>, hasTrigram: bool, status: FunctionStatus, name: string)
    requires Checks(db, es, hasTrigram, status).Some?
    requires forall k :: 0 <= k < |es| && es[k].indexname == name ==> !Wanted(es[k].field, hasTrigram)
    ensures var db' := Checks(db, es, hasTrigram, status).value;
            (name in db'.defs <==> name in db.defs) && (name in db.defs ==> db'.defs[name] == db.defs[name])
    decreases |es|
  {
    if es != [] {
      var c := Check(db, es[0], hasTrigram, status).value;
      CheckSpec(db, es[0], hasTrigram, status);
      forall k | 0 <= k < |es[1..]| && es[1..][k].indexname == name
        ensures !Wanted(es[1..][k].field, hasTrigram)
      {
        assert es[1..][k] == es[k + 1];
      }
      ChecksKeep(c, es[1..], hasTrigram, status, name);
    }
  }
}
