/** The three battle tables, the rows one result writes, and what they mean together. */
module BattleTables {
  import opened Counting
  import opened Wrappers

  type Trio = s: seq<int> | |s| == 3 witness [0, 0, 0]

  datatype BattleResult = BattleResult(matchID: int, winnerTeam: int, red: Trio, blue: Trio)

  datatype Record = Record(team: int, slot: int, isWin: int)

  datatype Stat = Stat(total: int, win: int, loss: int)

  /** (match_id, account_no), the unique key of player_battle_record. */
  datatype RecordKey = RecordKey(matchID: int, account: int)

  datatype RecordRow = RecordRow(key: RecordKey, rec: Record)

  datatype StatRow = StatRow(account: int, add: Stat)

  /** Keys as documented: match_id unique in battle_history, (match_id, account_no) unique in
      player_battle_record, account_no primary in player_battle_stat. */
  datatype Tables = Tables(
    history: map<int, int>,
    records: map<RecordKey, Record>,
    stats: map<int, Stat>)

  const EMPTY := Tables(map[], map[], map[])

  // ----- The three statements -----

  /** VALUES of PLAYER_BATTLE_RECORD_SAVE_QUERY as InsertPlayerBattleRecords fills them. */
  function RecordRows(r: BattleResult): seq<RecordRow> {
    var redWin := if r.winnerTeam == 1 then 1 else 0;
    var blueWin := if r.winnerTeam == 2 then 1 else 0;
    [ RecordRow(RecordKey(r.matchID, r.red[0]), Record(0, 0, redWin)),
      RecordRow(RecordKey(r.matchID, r.red[1]), Record(0, 1, redWin)),
      RecordRow(RecordKey(r.matchID, r.red[2]), Record(0, 2, redWin)),
      RecordRow(RecordKey(r.matchID, r.blue[0]), Record(1, 0, blueWin)),
      RecordRow(RecordKey(r.matchID, r.blue[1]), Record(1, 1, blueWin)),
      RecordRow(RecordKey(r.matchID, r.blue[2]), Record(1, 2, blueWin)) ]
  }

  /** VALUES of PLAYER_BATTLE_STAT_SAVE_QUERY as UpsertPlayerBattleStats fills them. */
  function StatRows(r: BattleResult): seq<StatRow> {
    var redWin := if r.winnerTeam == 1 then 1 else 0;
    var redLoss := if r.winnerTeam == 1 then 0 else 1;
    var blueWin := if r.winnerTeam == 2 then 1 else 0;
    var blueLoss := if r.winnerTeam == 2 then 0 else 1;
    [ StatRow(r.red[0], Stat(1, redWin, redLoss)),
      StatRow(r.red[1], Stat(1, redWin, redLoss)),
      StatRow(r.red[2], Stat(1, redWin, redLoss)),
      StatRow(r.blue[0], Stat(1, blueWin, blueLoss)),
      StatRow(r.blue[1], Stat(1, blueWin, blueLoss)),
      StatRow(r.blue[2], Stat(1, blueWin, blueLoss)) ]
  }

  /** A multi-row INSERT: one row whose key exists already fails the whole statement. */
  function InsertRows(records: map<RecordKey, Record>, rows: seq<RecordRow>): Option<map<RecordKey, Record>>
    decreases |rows|
  {
    if rows == [] then Some(records)
    else if rows[0].key in records then None
    else InsertRows(records[rows[0].key := rows[0].rec], rows[1..])
  }

  function AddStat(a: Stat, b: Stat): Stat {
    Stat(a.total + b.total, a.win + b.win, a.loss + b.loss)
  }

  function StatOf(stats: map<int, Stat>, account: int): Stat {
    if account in stats then stats[account] else Stat(0, 0, 0)
  }

  /** INSERT ... ON DUPLICATE KEY UPDATE, row by row. */
  function UpsertRows(stats: map<int, Stat>, rows: seq<StatRow>): map<int, Stat>
    decreases |rows|
  {
    if rows == [] then stats
    else UpsertRows(UpsertRow(stats, rows[0].account, rows[0].add), rows[1..])
  }

  function UpsertRow(stats: map<int, Stat>, account: int, add: Stat): map<int, Stat> {
    stats[account := if account in stats then AddStat(stats[account], add) else add]
  }

  datatype Statement = InsertHistory(r: BattleResult) | InsertRecords(r: BattleResult) | UpsertStats(r: BattleResult)

  /** The tables after a statement, or None when a unique key refuses it. */
  function Effect(t: Tables, s: Statement): Option<Tables> {
    match s
    case InsertHistory(r) =>
      if r.matchID in t.history then None else Some(t.(history := t.history[r.matchID := r.winnerTeam]))
    case InsertRecords(r) =>
      (match InsertRows(t.records, RecordRows(r))
       case None => None
       case Some(records) => Some(t.(records := records)))
    case UpsertStats(r) => Some(t.(stats := UpsertRows(t.stats, StatRows(r))))
  }

  /** The whole transaction of one result. */
  function ApplyResult(t: Tables, r: BattleResult): Option<Tables> {
    match Effect(t, InsertHistory(r))
    case None => None
    case Some(t1) =>
      match Effect(t1, InsertRecords(r))
      case None => None
      case Some(t2) => Effect(t2, UpsertStats(r))
  }

  // ----- What the tables mean together -----

  ghost function RecordsOf(records: map<RecordKey, Record>, account: int): set<RecordKey> {
    set k | k in records && k.account == account
  }

  ghost function WinsOf(records: map<RecordKey, Record>, account: int): set<RecordKey> {
    set k | k in records && k.account == account && records[k].isWin == 1
  }

  ghost function MatchRecords(records: map<RecordKey, Record>, matchID: int): set<RecordKey> {
    set k | k in records && k.matchID == matchID
  }

  /** The stat row an account should have: an aggregation of its records. */
  ghost function Aggregate(records: map<RecordKey, Record>, account: int): Stat {
    var total, win := |RecordsOf(records, account)|, |WinsOf(records, account)|;
    Stat(total, win, total - win)
  }

  ghost predicate StatMatches(t: Tables, a: int) {
    if a in t.stats then t.stats[a] == Aggregate(t.records, a) && t.stats[a].total > 0
    else |RecordsOf(t.records, a)| == 0
  }

  ghost predicate StatsMatch(t: Tables) {
    forall a {:trigger StatMatches(t, a)} :: StatMatches(t, a)
  }

  ghost predicate WinnersTold(t: Tables) {
    && (forall k :: k in t.records ==> k.matchID in t.history)
    && (forall k :: k in t.records ==>
          && 0 <= t.records[k].team <= 1 && 0 <= t.records[k].slot <= 2 && 0 <= t.records[k].isWin <= 1
          && (t.records[k].isWin == 1 <==> t.history[k.matchID] == t.records[k].team + 1))
  }

  ghost predicate HistoryMatches(t: Tables) {
    && WinnersTold(t)
    && (forall m :: m in t.history ==> |MatchRecords(t.records, m)| == 6)
  }

  /** Every history row has its six records, every record tells who won, and every stat row is
      the aggregation of the account's records. */
  ghost predicate Consistent(t: Tables) {
    StatsMatch(t) && HistoryMatches(t)
  }

  // ----- Counting rows of one account -----

  /** What one row adds to an account. */
  function Share(row: StatRow, account: int): Stat {
    if row.account == account then row.add else Stat(0, 0, 0)
  }

  function RowsFor(rows: seq<StatRow>, account: int): Stat
    decreases |rows|
  {
    if rows == [] then Stat(0, 0, 0) else AddStat(Share(rows[0], account), RowsFor(rows[1..], account))
  }

  /** The rows of one account added up from x, left to right. */
  function Fold(x: Stat, rows: seq<StatRow>, account: int): Stat
    decreases |rows|
  {
    if rows == [] then x
    else Fold(if rows[0].account == account then AddStat(x, rows[0].add) else x, rows[1..], account)
  }

  lemma {:induction false} FoldIsSum(x: Stat, rows: seq<StatRow>, account: int)
    ensures Fold(x, rows, account) == AddStat(x, RowsFor(rows, account))
    decreases |rows|
  {
    if rows != [] {
      var rest := RowsFor(rows[1..], account);
      if rows[0].account == account {
        FoldIsSum(AddStat(x, rows[0].add), rows[1..], account);
        AddStatAssoc(x, rows[0].add, rest);
      } else {
        FoldIsSum(x, rows[1..], account);
        AddZero(rest);
      }
    }
  }

  lemma {:induction false} UpsertFolds(stats: map<int, Stat>, rows: seq<StatRow>, account: int)
    ensures StatOf(UpsertRows(stats, rows), account) == Fold(StatOf(stats, account), rows, account)
    decreases |rows|
  {
    if rows != [] {
      UpsertFolds(UpsertRow(stats, rows[0].account, rows[0].add), rows[1..], account);
      UpsertOne(stats, rows[0], account);
    }
  }

  lemma UpsertOne(stats: map<int, Stat>, row: StatRow, account: int)
    ensures StatOf(UpsertRow(stats, row.account, row.add), account)
         == if row.account == account then AddStat(StatOf(stats, account), row.add) else StatOf(stats, account)
  {
  }

  lemma UpsertAdds(stats: map<int, Stat>, rows: seq<StatRow>, account: int)
    ensures StatOf(UpsertRows(stats, rows), account) == AddStat(StatOf(stats, account), RowsFor(rows, account))
  {
    UpsertFolds(stats, rows, account);
    FoldIsSum(StatOf(stats, account), rows, account);
  }

  predicate Mentions(rows: seq<StatRow>, account: int)
    decreases |rows|
  {
    rows != [] && (rows[0].account == account || Mentions(rows[1..], account))
  }

  lemma {:induction false} UpsertKeys(stats: map<int, Stat>, rows: seq<StatRow>, account: int)
    ensures account in UpsertRows(stats, rows) <==> account in stats || Mentions(rows, account)
    decreases |rows|
  {
    if rows != [] {
      UpsertKeys(UpsertRow(stats, rows[0].account, rows[0].add), rows[1..], account);
    }
  }

  /** The stat row that corresponds to a record row. */
  function Tally(row: RecordRow): StatRow {
    StatRow(row.key.account, Stat(1, if row.rec.isWin == 1 then 1 else 0, if row.rec.isWin == 1 then 0 else 1))
  }

  function Tallies(rows: seq<RecordRow>): seq<StatRow>
    decreases |rows|
  {
    if rows == [] then [] else [Tally(rows[0])] + Tallies(rows[1..])
  }

  /** The two VALUES lists of the code agree row by row. */
  lemma RowsAgree(r: BattleResult)
    ensures StatRows(r) == Tallies(RecordRows(r))
  {
    var rows := RecordRows(r);
    TalliesAt(rows);
    assert |StatRows(r)| == |rows|;
    forall i | 0 <= i < 6 ensures StatRows(r)[i] == Tally(rows[i]) {
    }
  }

  lemma {:induction false} TalliesAt(rows: seq<RecordRow>)
    ensures |Tallies(rows)| == |rows|
    ensures forall i :: 0 <= i < |rows| ==> Tallies(rows)[i] == Tally(rows[i])
    decreases |rows|
  {
    if rows != [] {
      TalliesAt(rows[1..]);
    }
  }

  lemma AddKey<K>(s: set<K>, k: K)
    requires k !in s
    ensures |s + {k}| == |s| + 1
  {
  }

  lemma RecordsOfInsert(records: map<RecordKey, Record>, k: RecordKey, rec: Record, account: int)
    requires k !in records
    ensures |RecordsOf(records[k := rec], account)| == |RecordsOf(records, account)| + (if k.account == account then 1 else 0)
  {
    if k.account == account {
      assert RecordsOf(records[k := rec], account) == RecordsOf(records, account) + {k};
      AddKey(RecordsOf(records, account), k);
    } else {
      assert RecordsOf(records[k := rec], account) == RecordsOf(records, account);
    }
  }

  lemma WinsOfInsert(records: map<RecordKey, Record>, k: RecordKey, rec: Record, account: int)
    requires k !in records
    ensures |WinsOf(records[k := rec], account)|
         == |WinsOf(records, account)| + (if k.account == account && rec.isWin == 1 then 1 else 0)
  {
    if k.account == account && rec.isWin == 1 {
      assert WinsOf(records[k := rec], account) == WinsOf(records, account) + {k};
      AddKey(WinsOf(records, account), k);
    } else {
      assert WinsOf(records[k := rec], account) == WinsOf(records, account);
    }
  }

  /** One new record adds one to its account's aggregate and nothing to the others. */
  lemma AggregateInsert(records: map<RecordKey, Record>, k: RecordKey, rec: Record, account: int)
    requires k !in records
    ensures Aggregate(records[k := rec], account)
         == AddStat(Aggregate(records, account), Share(Tally(RecordRow(k, rec)), account))
  {
    RecordsOfInsert(records, k, rec, account);
    WinsOfInsert(records, k, rec, account);
  }

  predicate BinaryWins(rows: seq<RecordRow>) {
    forall i :: 0 <= i < |rows| ==> 0 <= rows[i].rec.isWin <= 1
  }

  lemma {:induction false} AggregateInsertRows(records: map<RecordKey, Record>, rows: seq<RecordRow>, account: int)
    requires InsertRows(records, rows).Some?
    ensures Aggregate(InsertRows(records, rows).value, account)
         == AddStat(Aggregate(records, account), RowsFor(Tallies(rows), account))
    decreases |rows|
  {
    if rows != [] {
      var records' := records[rows[0].key := rows[0].rec];
      AggregateInsert(records, rows[0].key, rows[0].rec, account);
      AggregateInsertRows(records', rows[1..], account);
      assert Tallies(rows)[1..] == Tallies(rows[1..]);
      AddStatAssoc(Aggregate(records, account), Share(Tally(rows[0]), account), RowsFor(Tallies(rows[1..]), account));
    }
  }

  lemma AddZero(a: Stat)
    ensures AddStat(Stat(0, 0, 0), a) == a && AddStat(a, Stat(0, 0, 0)) == a
  {
  }

  lemma AddStatAssoc(a: Stat, b: Stat, c: Stat)
    ensures AddStat(AddStat(a, b), c) == AddStat(a, AddStat(b, c))
  {
  }

  /** A successful multi-row insert stores exactly the given rows, all new and distinct. */
  lemma {:induction false} InsertRowsStores(records: map<RecordKey, Record>, rows: seq<RecordRow>)
    ensures InsertRows(records, rows).Some? <==>
      && (forall i :: 0 <= i < |rows| ==> rows[i].key !in records)
      && (forall i, j :: 0 <= i < j < |rows| ==> rows[i].key != rows[j].key)
    ensures InsertRows(records, rows).Some? ==>
      var records' := InsertRows(records, rows).value;
      && (forall k :: k in records ==> k in records' && records'[k] == records[k])
      && (forall i :: 0 <= i < |rows| ==> rows[i].key in records' && records'[rows[i].key] == rows[i].rec)
      && (forall k :: k in records' ==> k in records || exists i :: 0 <= i < |rows| && rows[i].key == k)
    decreases |rows|
  {
    if rows != [] {
      var head, tail := rows[0], rows[1..];
      assert forall i :: 1 <= i < |rows| ==> rows[i] == tail[i - 1];
      if head.key !in records {
        InsertRowsStores(records[head.key := head.rec], tail);
        assert forall i :: 0 <= i < |tail| ==> tail[i] == rows[i + 1];
      }
    }
  }

  lemma {:induction false} MatchRecordsInsertRows(records: map<RecordKey, Record>, rows: seq<RecordRow>, m: int)
    requires InsertRows(records, rows).Some? && forall i :: 0 <= i < |rows| ==> rows[i].key.matchID == m
    ensures |MatchRecords(InsertRows(records, rows).value, m)| == |MatchRecords(records, m)| + |rows|
    decreases |rows|
  {
    if rows != [] {
      var RecordRow(k, rec) := rows[0];
      assert MatchRecords(records[k := rec], m) == MatchRecords(records, m) + {k};
      AddKey(MatchRecords(records, m), k);
      MatchRecordsInsertRows(records[k := rec], rows[1..], m);
    }
  }

  // ----- One transaction -----

  ghost predicate SixAccounts(r: BattleResult) {
    var all := r.red + r.blue;
    forall i, j :: 0 <= i < j < 6 ==> all[i] != all[j]
  }

  lemma RecordRowsFacts(r: BattleResult)
    ensures |RecordRows(r)| == 6 && BinaryWins(RecordRows(r))
    ensures forall i :: 0 <= i < 6 ==>
      var RecordRow(k, rec) := RecordRows(r)[i];
      && k == RecordKey(r.matchID, (r.red + r.blue)[i])
      && 0 <= rec.team <= 1 && 0 <= rec.slot <= 2 && rec.team * 3 + rec.slot == i
      && (rec.isWin == 1 <==> r.winnerTeam == rec.team + 1)
  {
  }

  /** A result is refused exactly when its match is in the history already or an account
      appears twice in it; so resubmitting a stored match changes nothing. */
  lemma AcceptedExactly(t: Tables, r: BattleResult)
    requires Consistent(t)
    ensures ApplyResult(t, r).Some? <==> r.matchID !in t.history && SixAccounts(r)
  {
    RecordRowsFacts(r);
    var rows := RecordRows(r);
    if r.matchID !in t.history {
      InsertRowsStores(t.records, rows);
      assert forall i :: 0 <= i < 6 ==> rows[i].key !in t.records;
      var all := r.red + r.blue;
      assert forall i, j :: 0 <= i < j < 6 ==> (rows[i].key != rows[j].key <==> all[i] != all[j]);
    }
  }

  /** The stat row of one account after the whole transaction. */
  lemma StatAfter(t: Tables, records: map<RecordKey, Record>, r: BattleResult, a: int)
    requires StatMatches(t, a) && InsertRows(t.records, RecordRows(r)) == Some(records)
    ensures StatMatches(Tables(t.history, records, UpsertRows(t.stats, StatRows(r))), a)
  {
    var rows := StatRows(r);
    RowsAgree(r);
    UpsertAdds(t.stats, rows, a);
    UpsertKeys(t.stats, rows, a);
    AggregateInsertRows(t.records, RecordRows(r), a);
    WinsWithin(t.records, a);
    TallyTotal(rows, a);
  }

  lemma StatsAfter(t: Tables, r: BattleResult)
    requires StatsMatch(t) && ApplyResult(t, r).Some?
    ensures StatsMatch(ApplyResult(t, r).value)
  {
    var t' := ApplyResult(t, r).value;
    forall a ensures StatMatches(t', a) {
      assert StatMatches(t, a);
      StatAfter(t, t'.records, r, a);
    }
  }

  lemma WinsWithin(records: map<RecordKey, Record>, a: int)
    ensures |RecordsOf(records, a)| == 0 ==> Aggregate(records, a) == Stat(0, 0, 0)
  {
    if |RecordsOf(records, a)| == 0 {
      assert WinsOf(records, a) == {} by {
        assert RecordsOf(records, a) == {};
        assert forall k :: k in WinsOf(records, a) ==> k in RecordsOf(records, a);
      }
    }
  }

  lemma {:induction false} TallyTotal(rows: seq<StatRow>, a: int)
    requires forall i :: 0 <= i < |rows| ==> rows[i].add.total == 1
    ensures RowsFor(rows, a).total >= 0
    ensures RowsFor(rows, a).total > 0 <==> Mentions(rows, a)
    decreases |rows|
  {
    if rows != [] {
      TallyTotal(rows[1..], a);
    }
  }

  lemma MatchCountAfter(t: Tables, records: map<RecordKey, Record>, r: BattleResult, m: int)
    requires HistoryMatches(t) && r.matchID !in t.history && InsertRows(t.records, RecordRows(r)) == Some(records)
    requires m in t.history || m == r.matchID
    ensures |MatchRecords(records, m)| == 6
  {
    var rows := RecordRows(r);
    RecordRowsFacts(r);
    if m == r.matchID {
      MatchRecordsInsertRows(t.records, rows, m);
      assert MatchRecords(t.records, m) == {};
    } else {
      InsertRowsStores(t.records, rows);
      assert MatchRecords(records, m) == MatchRecords(t.records, m);
    }
  }

  lemma NewRecordsTellWinner(t: Tables, r: BattleResult)
    requires HistoryMatches(t) && ApplyResult(t, r).Some?
    ensures WinnersTold(ApplyResult(t, r).value)
  {
    RecordRowsFacts(r);
    InsertRowsStores(t.records, RecordRows(r));
  }

  lemma HistoryAfter(t: Tables, r: BattleResult)
    requires HistoryMatches(t) && ApplyResult(t, r).Some?
    ensures HistoryMatches(ApplyResult(t, r).value)
  {
    var t' := ApplyResult(t, r).value;
    NewRecordsTellWinner(t, r);
    forall m | m in t'.history ensures |MatchRecords(t'.records, m)| == 6 {
      MatchCountAfter(t, t'.records, r, m);
    }
  }

  /** A result that goes through keeps history, records and stats in agreement. */
  lemma ApplyKeepsConsistent(t: Tables, r: BattleResult)
    requires Consistent(t) && ApplyResult(t, r).Some?
    ensures Consistent(ApplyResult(t, r).value)
  {
    StatsAfter(t, r);
    HistoryAfter(t, r);
  }

  /** A transaction cut short is visible: the tables with only the first, or the first two,
      statements of a result are not consistent. */
  lemma PartialIsInconsistent(t: Tables, r: BattleResult)
    requires Consistent(t) && ApplyResult(t, r).Some?
    ensures var t1 := Effect(t, InsertHistory(r)).value;
      && !Consistent(t1)
      && !Consistent(Effect(t1, InsertRecords(r)).value)
  {
    var t1 := Effect(t, InsertHistory(r)).value;
    var t2 := Effect(t1, InsertRecords(r)).value;
    assert MatchRecords(t1.records, r.matchID) == {};
    assert r.matchID in t1.history;
    var a := r.red[0];
    RecordRowsFacts(r);
    AggregateInsertRows(t.records, RecordRows(r), a);
    RowsAgree(r);
    TallyTotal(StatRows(r), a);
    assert StatMatches(t, a);
    assert StatRows(r)[0].account == a;
    WinsWithin(t.records, a);
    assert !StatMatches(t2, a);
  }

  // ----- Who gets what -----

  /** The records of the match: team, slot and outcome of each of the six players; no other record
      is touched. */
  ghost predicate RecordsTold(before: map<RecordKey, Record>, r: BattleResult, after: map<RecordKey, Record>) {
    && (forall i :: 0 <= i < 3 ==>
          && RecordKey(r.matchID, r.red[i]) in after
          && after[RecordKey(r.matchID, r.red[i])] == Record(0, i, if r.winnerTeam == 1 then 1 else 0))
    && (forall i :: 0 <= i < 3 ==>
          && RecordKey(r.matchID, r.blue[i]) in after
          && after[RecordKey(r.matchID, r.blue[i])] == Record(1, i, if r.winnerTeam == 2 then 1 else 0))
    && (forall k :: k in before ==> k in after && after[k] == before[k])
    && (forall k :: k in after ==> k in before || (k.matchID == r.matchID && k.account in r.red + r.blue))
  }

  lemma {:induction false} RowsLiterally(r: BattleResult, i: int)
    requires 0 <= i < 3
    ensures |RecordRows(r)| == 6
    ensures RecordRows(r)[i]
         == RecordRow(RecordKey(r.matchID, r.red[i]), Record(0, i, if r.winnerTeam == 1 then 1 else 0))
    ensures RecordRows(r)[i + 3]
         == RecordRow(RecordKey(r.matchID, r.blue[i]), Record(1, i, if r.winnerTeam == 2 then 1 else 0))
  {
    if i == 0 {
    } else if i == 1 {
    } else {
      assert i == 2;
    }
  }

  lemma {:induction false} NewKeys(records: map<RecordKey, Record>, r: BattleResult, k: RecordKey)
    requires InsertRows(records, RecordRows(r)).Some? && k in InsertRows(records, RecordRows(r)).value && k !in records
    ensures k.matchID == r.matchID && k.account in r.red + r.blue
  {
    var rows := RecordRows(r);
    InsertRowsStores(records, rows);
    RecordRowsFacts(r);
    var i :| 0 <= i < 6 && rows[i].key == k;
    assert k.account == (r.red + r.blue)[i];
  }

  lemma {:induction false} NewRecords(records: map<RecordKey, Record>, r: BattleResult, i: int)
    requires InsertRows(records, RecordRows(r)).Some? && 0 <= i < 3
    ensures var after := InsertRows(records, RecordRows(r)).value;
      && RecordKey(r.matchID, r.red[i]) in after
      && after[RecordKey(r.matchID, r.red[i])] == Record(0, i, if r.winnerTeam == 1 then 1 else 0)
      && RecordKey(r.matchID, r.blue[i]) in after
      && after[RecordKey(r.matchID, r.blue[i])] == Record(1, i, if r.winnerTeam == 2 then 1 else 0)
  {
    InsertRowsStores(records, RecordRows(r));
    RowsLiterally(r, i);
  }

  lemma {:induction false} DistinctKeys(records: map<RecordKey, Record>, r: BattleResult)
    requires InsertRows(records, RecordRows(r)).Some?
    ensures SixAccounts(r)
  {
    var rows, all := RecordRows(r), r.red + r.blue;
    InsertRowsStores(records, rows);
    RecordRowsFacts(r);
    forall i, j | 0 <= i < j < 6 ensures all[i] != all[j] {
      assert rows[i].key != rows[j].key;
    }
  }

  lemma {:induction false} RowsStored(records: map<RecordKey, Record>, r: BattleResult)
    requires InsertRows(records, RecordRows(r)).Some?
    ensures RecordsTold(records, r, InsertRows(records, RecordRows(r)).value) && SixAccounts(r)
  {
    var after := InsertRows(records, RecordRows(r)).value;
    DistinctKeys(records, r);
    InsertRowsStores(records, RecordRows(r));
    forall i | 0 <= i < 3
      ensures RecordKey(r.matchID, r.red[i]) in after && RecordKey(r.matchID, r.blue[i]) in after
      ensures after[RecordKey(r.matchID, r.red[i])] == Record(0, i, if r.winnerTeam == 1 then 1 else 0)
      ensures after[RecordKey(r.matchID, r.blue[i])] == Record(1, i, if r.winnerTeam == 2 then 1 else 0)
    {
      NewRecords(records, r, i);
    }
    forall k | k in after && k !in records ensures k.matchID == r.matchID && k.account in r.red + r.blue {
      NewKeys(records, r, k);
    }
  }

  /** The record statement, when it is not refused. */
  lemma {:induction false} RecordsStored(t: Tables, r: BattleResult)
    requires Effect(t, InsertRecords(r)).Some?
    ensures var t' := Effect(t, InsertRecords(r)).value;
      t' == t.(records := t'.records) && RecordsTold(t.records, r, t'.records) && SixAccounts(r)
  {
    RowsStored(t.records, r);
  }

  /** So many battles as a red and as a blue player, won or lost as that team. */
  function Score(winnerTeam: int, red: nat, blue: nat): Stat {
    if winnerTeam == 1 then Stat(red + blue, red, blue)
    else if winnerTeam == 2 then Stat(red + blue, blue, red)
    else Stat(red + blue, 0, red + blue)
  }

  /** What the stat statement adds to an account: one battle for each place it has in a team. */
  function Gain(r: BattleResult, a: int): Stat {
    Score(r.winnerTeam, Places(r.red, a), Places(r.blue, a))
  }

  /** Every account has gained its share, the six have a row, and no other row has appeared. */
  ghost predicate StatsGained(before: map<int, Stat>, r: BattleResult, after: map<int, Stat>) {
    && (forall a :: StatOf(after, a) == AddStat(StatOf(before, a), Gain(r, a)))
    && (forall a :: a in after <==> a in before || a in r.red + r.blue)
  }

  function Places(team: Trio, a: int): nat {
    Bit(team[0] == a) + Bit(team[1] == a) + Bit(team[2] == a)
  }

  lemma PlaceInTeam(r: BattleResult, a: int)
    ensures a in r.red + r.blue <==> Places(r.red, a) + Places(r.blue, a) > 0
  {
    assert a in r.red + r.blue <==> a in r.red || a in r.blue;
    InTeam(r.red, a);
    InTeam(r.blue, a);
  }

  lemma InTeam(team: Trio, a: int)
    ensures a in team <==> Places(team, a) > 0
  {
    assert team == [team[0], team[1], team[2]];
  }

  /** What one row of a team adds. */
  function Won(n: nat, win: bool): Stat {
    Stat(n, if win then n else 0, if win then 0 else n)
  }

  lemma {:induction false} RowsForCons(row: StatRow, rest: seq<StatRow>, a: int)
    ensures RowsFor([row] + rest, a) == AddStat(Share(row, a), RowsFor(rest, a))
  {
    var rows := [row] + rest;
    assert rows[1..] == rest;
  }

  lemma RowShare(b: int, win: bool, a: int)
    ensures Share(StatRow(b, Won(1, win)), a) == Won(Bit(b == a), win)
  {
  }

  lemma ThreeRows(s1: Stat, s2: Stat, s3: Stat, rest: Stat, x: nat, y: nat, z: nat, win: bool)
    requires s1 == Won(x, win) && s2 == Won(y, win) && s3 == Won(z, win)
    ensures AddStat(s1, AddStat(s2, AddStat(s3, rest))) == AddStat(Won(x + y + z, win), rest)
  {
  }

  /** The three rows of one team. */
  function TeamRows(x: StatRow, y: StatRow, z: StatRow, rest: seq<StatRow>): seq<StatRow> {
    [x] + ([y] + ([z] + rest))
  }

  lemma {:induction false} TeamSums(x: StatRow, y: StatRow, z: StatRow, rest: seq<StatRow>, a: int)
    ensures RowsFor(TeamRows(x, y, z, rest), a)
         == AddStat(Share(x, a), AddStat(Share(y, a), AddStat(Share(z, a), RowsFor(rest, a))))
  {
    RowsForCons(x, [y] + ([z] + rest), a);
    RowsForCons(y, [z] + rest, a);
    RowsForCons(z, rest, a);
  }

  function TeamRow(team: Trio, i: int, win: bool): StatRow
    requires 0 <= i < 3
  {
    StatRow(team[i], Won(1, win))
  }

  /** What the three rows of one team add to an account, before some more. */
  function TeamSum(team: Trio, win: bool, a: int, rest: Stat): Stat {
    AddStat(Share(TeamRow(team, 0, win), a),
            AddStat(Share(TeamRow(team, 1, win), a), AddStat(Share(TeamRow(team, 2, win), a), rest)))
  }

  lemma TeamGains(team: Trio, win: bool, a: int, rest: Stat)
    ensures TeamSum(team, win, a, rest) == AddStat(Won(Places(team, a), win), rest)
  {
    RowShare(team[0], win, a);
    RowShare(team[1], win, a);
    RowShare(team[2], win, a);
    ThreeRows(Share(TeamRow(team, 0, win), a), Share(TeamRow(team, 1, win), a), Share(TeamRow(team, 2, win), a), rest,
              Bit(team[0] == a), Bit(team[1] == a), Bit(team[2] == a), win);
  }

  function TeamOf(team: Trio, win: bool, rest: seq<StatRow>): seq<StatRow> {
    TeamRows(TeamRow(team, 0, win), TeamRow(team, 1, win), TeamRow(team, 2, win), rest)
  }

  lemma TwoTeams(r: BattleResult)
    ensures StatRows(r) == TeamOf(r.red, r.winnerTeam == 1, TeamOf(r.blue, r.winnerTeam == 2, []))
  {
  }

  lemma ScoreIsSum(winnerTeam: int, red: nat, blue: nat)
    ensures Score(winnerTeam, red, blue)
         == AddStat(Won(red, winnerTeam == 1), AddStat(Won(blue, winnerTeam == 2), Stat(0, 0, 0)))
  {
  }

  lemma {:induction false} RowsForSums(r: BattleResult, a: int)
    ensures RowsFor(StatRows(r), a)
         == TeamSum(r.red, r.winnerTeam == 1, a, TeamSum(r.blue, r.winnerTeam == 2, a, Stat(0, 0, 0)))
  {
    var blue := TeamOf(r.blue, r.winnerTeam == 2, []);
    var red1, blue2 := r.winnerTeam == 1, r.winnerTeam == 2;
    TwoTeams(r);
    TeamSums(TeamRow(r.red, 0, red1), TeamRow(r.red, 1, red1), TeamRow(r.red, 2, red1), blue, a);
    TeamSums(TeamRow(r.blue, 0, blue2), TeamRow(r.blue, 1, blue2), TeamRow(r.blue, 2, blue2), [], a);
  }

  lemma RowsForGain(r: BattleResult, a: int)
    ensures RowsFor(StatRows(r), a) == Gain(r, a)
  {
    var blue := TeamSum(r.blue, r.winnerTeam == 2, a, Stat(0, 0, 0));
    RowsForSums(r, a);
    TeamGains(r.red, r.winnerTeam == 1, a, blue);
    TeamGains(r.blue, r.winnerTeam == 2, a, Stat(0, 0, 0));
    ScoreIsSum(r.winnerTeam, Places(r.red, a), Places(r.blue, a));
  }

  lemma RowGained(stats: map<int, Stat>, r: BattleResult, a: int)
    ensures StatOf(UpsertRows(stats, StatRows(r)), a) == AddStat(StatOf(stats, a), Gain(r, a))
  {
    UpsertAdds(stats, StatRows(r), a);
    RowsForGain(r, a);
  }

  lemma GainInTeam(r: BattleResult, a: int)
    ensures Gain(r, a).total > 0 <==> a in r.red + r.blue
  {
    PlaceInTeam(r, a);
  }

  lemma RowAppears(stats: map<int, Stat>, r: BattleResult, a: int)
    ensures a in UpsertRows(stats, StatRows(r)) <==> a in stats || a in r.red + r.blue
  {
    assert Mentions(StatRows(r), a) <==> a in r.red + r.blue by {
      TallyTotal(StatRows(r), a);
      RowsForGain(r, a);
      GainInTeam(r, a);
    }
    UpsertKeys(stats, StatRows(r), a);
  }

  /** The stat statement. */
  lemma {:induction false} StatsAdded(t: Tables, r: BattleResult)
    ensures Effect(t, UpsertStats(r)).Some?
    ensures var t' := Effect(t, UpsertStats(r)).value;
      t' == t.(stats := t'.stats) && StatsGained(t.stats, r, t'.stats)
  {
    var after := UpsertRows(t.stats, StatRows(r));
    forall a
      ensures StatOf(after, a) == AddStat(StatOf(t.stats, a), Gain(r, a))
      ensures a in after <==> a in t.stats || a in r.red + r.blue
    {
      RowGained(t.stats, r, a);
      RowAppears(t.stats, r, a);
    }
  }

  /** With six distinct accounts the gain is one battle, won exactly if the account's team is the
      winner. */
  lemma {:induction false} GainOfSix(r: BattleResult, i: int)
    requires SixAccounts(r) && 0 <= i < 3
    ensures Gain(r, r.red[i]) == Stat(1, Bit(r.winnerTeam == 1), Bit(r.winnerTeam != 1))
    ensures Gain(r, r.blue[i]) == Stat(1, Bit(r.winnerTeam == 2), Bit(r.winnerTeam != 2))
  {
    AllDistinct(r);
  }

  lemma AllDistinct(r: BattleResult)
    requires SixAccounts(r)
    ensures forall i, j :: 0 <= i < j < 3 ==> r.red[i] != r.red[j] && r.blue[i] != r.blue[j]
    ensures forall i, j :: 0 <= i < 3 && 0 <= j < 3 ==> r.red[i] != r.blue[j]
  {
    var all := r.red + r.blue;
    forall i, j | 0 <= i < 3 && 0 <= j < 3
      ensures i < j ==> r.red[i] != r.red[j] && r.blue[i] != r.blue[j]
      ensures r.red[i] != r.blue[j]
    {
      assert all[i] == r.red[i] && all[j] == r.red[j] && all[i + 3] == r.blue[i] && all[j + 3] == r.blue[j];
    }
  }

  /** What a result leaves: the history gets the winner, each player its record and one more battle,
      won exactly if its team is the winner, and no other row changes. */
  ghost predicate Applied(t: Tables, r: BattleResult, t': Tables) {
    && t'.history == t.history[r.matchID := r.winnerTeam]
    && RecordsTold(t.records, r, t'.records)
    && StatsGained(t.stats, r, t'.stats)
    && SixStats(t.stats, r, t'.stats)
  }

  ghost predicate SixStats(before: map<int, Stat>, r: BattleResult, after: map<int, Stat>) {
    && (forall i :: 0 <= i < 3 ==>
          StatOf(after, r.red[i])
          == AddStat(StatOf(before, r.red[i]), Stat(1, Bit(r.winnerTeam == 1), Bit(r.winnerTeam != 1))))
    && (forall i :: 0 <= i < 3 ==>
          StatOf(after, r.blue[i])
          == AddStat(StatOf(before, r.blue[i]), Stat(1, Bit(r.winnerTeam == 2), Bit(r.winnerTeam != 2))))
    && (forall a :: a !in r.red + r.blue ==> StatOf(after, a) == StatOf(before, a))
  }

  lemma {:induction false} StatsOfSix(before: map<int, Stat>, r: BattleResult, after: map<int, Stat>, i: int)
    requires SixAccounts(r) && 0 <= i < 3 && forall a :: StatOf(after, a) == AddStat(StatOf(before, a), Gain(r, a))
    ensures StatOf(after, r.red[i])
         == AddStat(StatOf(before, r.red[i]), Stat(1, Bit(r.winnerTeam == 1), Bit(r.winnerTeam != 1)))
    ensures StatOf(after, r.blue[i])
         == AddStat(StatOf(before, r.blue[i]), Stat(1, Bit(r.winnerTeam == 2), Bit(r.winnerTeam != 2)))
  {
    GainOfSix(r, i);
  }

  lemma {:induction false} StatsOfOthers(before: map<int, Stat>, r: BattleResult, after: map<int, Stat>, a: int)
    requires a !in r.red + r.blue && StatOf(after, a) == AddStat(StatOf(before, a), Gain(r, a))
    ensures StatOf(after, a) == StatOf(before, a)
  {
    NoGain(r, a);
    AddZero(StatOf(before, a));
  }

  lemma {:induction false} StatsTold(before: map<int, Stat>, r: BattleResult, after: map<int, Stat>)
    requires SixAccounts(r) && StatsGained(before, r, after)
    ensures SixStats(before, r, after)
  {
    forall i | 0 <= i < 3
      ensures StatOf(after, r.red[i])
           == AddStat(StatOf(before, r.red[i]), Stat(1, Bit(r.winnerTeam == 1), Bit(r.winnerTeam != 1)))
      ensures StatOf(after, r.blue[i])
           == AddStat(StatOf(before, r.blue[i]), Stat(1, Bit(r.winnerTeam == 2), Bit(r.winnerTeam != 2)))
    {
      StatsOfSix(before, r, after, i);
    }
    forall a | a !in r.red + r.blue ensures StatOf(after, a) == StatOf(before, a) {
      StatsOfOthers(before, r, after, a);
    }
  }

  lemma StepsOfResult(t: Tables, r: BattleResult)
    requires ApplyResult(t, r).Some?
    ensures var t' := ApplyResult(t, r).value;
      && Effect(t, InsertRecords(r)) == Some(t.(records := t'.records))
      && Effect(t, UpsertStats(r)) == Some(t.(stats := t'.stats))
      && t'.history == t.history[r.matchID := r.winnerTeam]
  {
  }

  /** The whole transaction. */
  lemma {:induction false} AppliedExactly(t: Tables, r: BattleResult)
    requires ApplyResult(t, r).Some?
    ensures Applied(t, r, ApplyResult(t, r).value) && SixAccounts(r)
  {
    StepsOfResult(t, r);
    RecordsStored(t, r);
    StatsAdded(t, r);
    StatsTold(t.stats, r, ApplyResult(t, r).value.stats);
  }

  lemma NoGain(r: BattleResult, a: int)
    requires a !in r.red + r.blue
    ensures Gain(r, a) == Stat(0, 0, 0)
  {
    PlaceInTeam(r, a);
  }

  /** The empty tables agree with each other. */
  lemma EmptyConsistent()
    ensures Consistent(EMPTY)
  {
    forall a ensures StatMatches(EMPTY, a) {
      assert RecordsOf(EMPTY.records, a) == {};
    }
  }

  // ----- Sequences of results -----

  /** The tables after the given results were applied one after another. */
  function ApplyAll(t: Tables, rs: seq<BattleResult>): Option<Tables>
    decreases |rs|
  {
    if rs == [] then Some(t)
    else match ApplyAll(t, rs[..|rs| - 1])
      case None => None
      case Some(t') => ApplyResult(t', rs[|rs| - 1])
  }

  lemma ApplyAllSnoc(t: Tables, rs: seq<BattleResult>, r: BattleResult)
    requires ApplyAll(t, rs).Some?
    ensures ApplyAll(t, rs + [r]) == ApplyResult(ApplyAll(t, rs).value, r)
  {
    assert (rs + [r])[..|rs|] == rs;
  }

  lemma ApplyHistory(t: Tables, r: BattleResult)
    requires ApplyResult(t, r).Some?
    ensures r.matchID !in t.history
    ensures ApplyResult(t, r).value.history == t.history[r.matchID := r.winnerTeam]
  {
  }

  lemma {:induction false} ApplyAllDistinct(t: Tables, rs: seq<BattleResult>)
    requires ApplyAll(t, rs).Some?
    ensures forall i, j :: 0 <= i < j < |rs| ==> rs[i].matchID != rs[j].matchID
    ensures forall i :: 0 <= i < |rs| ==> rs[i].matchID in ApplyAll(t, rs).value.history
    decreases |rs|
  {
    if rs != [] {
      var before, last := rs[..|rs| - 1], rs[|rs| - 1];
      ApplyAllDistinct(t, before);
      ApplyHistory(ApplyAll(t, before).value, last);
      assert forall i :: 0 <= i < |before| ==> rs[i] == before[i];
    }
  }

  /** Whatever was applied, in any number: the tables agree with each other, and no match was
      counted twice. */
  lemma {:induction false} ApplyAllConsistent(t: Tables, rs: seq<BattleResult>)
    requires Consistent(t) && ApplyAll(t, rs).Some?
    ensures Consistent(ApplyAll(t, rs).value)
    ensures forall i, j :: 0 <= i < j < |rs| ==> rs[i].matchID != rs[j].matchID
    decreases |rs|
  {
    ApplyAllDistinct(t, rs);
    if rs != [] {
      ApplyAllConsistent(t, rs[..|rs| - 1]);
      ApplyKeepsConsistent(ApplyAll(t, rs[..|rs| - 1]).value, rs[|rs| - 1]);
    }
  }
}
