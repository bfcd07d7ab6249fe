/** The chat bot's actions: an intent is dispatched to an action, the action
    resolves the entity names of the question to vertex ids when it is
    built, and answers from the rows the graph database returns. The
    database is outside the model: a query's outcome is an input, either a
    failure or its rows. The name tables come from configuration files and
    are inputs too. */
module Actions {
  import opened Common
  import opened BertClassifier

  // ------------------------------------------------------------ name tables

  /** The player and team tables, name to vertex id, in file order. */
  datatype Tables = Tables(players: seq<(string, string)>, teams: seq<(string, string)>)

  /** `table.get(key)` on a dictionary loaded from a file: the value of the
      first entry for the key. A dictionary has one entry per key
      (`KeysDistinct`), and then that entry is the only one. */
  function Lookup(table: seq<(string, string)>, key: string): (r: Option<string>)
    ensures r.None? <==> forall k | 0 <= k < |table| :: table[k].0 != key
    ensures r.Some? ==> exists k | 0 <= k < |table| :: table[k] == (key, r.value) && forall j | 0 <= j < k :: table[j].0 != key
  {
    if table == [] then None
    else if table[0].0 == key then Some(table[0].1)
    else
      var r := Lookup(table[1..], key);
      assert forall k | 0 < k < |table| :: table[k] == table[1..][k - 1];
      if r.Some? then
        var k :| 0 <= k < |table[1..]| && table[1..][k] == (key, r.value) && forall j | 0 <= j < k :: table[1..][j].0 != key;
        assert table[k + 1] == (key, r.value) && forall j | 0 <= j < k + 1 :: table[j].0 != key;
        r
      else r
  }

  predicate KeysDistinct(table: seq<(string, string)>) {
    forall i, j | 0 <= i < j < |table| :: table[i].0 != table[j].0
  }

  /** With one entry per key, every entry is found under its key. */
  lemma LookupEntry(table: seq<(string, string)>, k: nat)
    requires KeysDistinct(table) && k < |table|
    ensures Lookup(table, table[k].0) == Some(table[k].1)
  {
    var r := Lookup(table, table[k].0);
    var m :| 0 <= m < |table| && table[m] == (table[k].0, r.value) && forall j | 0 <= j < m :: table[j].0 != table[k].0;
    assert m == k;
  }

  /** `{value: key for (key, value) in table.items()}`: id to name, a later
      entry winning over an earlier one with the same id. */
  function Inverted(table: seq<(string, string)>): map<string, string> {
    if table == [] then map[]
    else
      var n := |table| - 1;
      Inverted(table[..n])[table[n].1 := table[n].0]
  }

  predicate ValuesDistinct(table: seq<(string, string)>) {
    forall i, j | 0 <= i < j < |table| :: table[i].1 != table[j].1
  }

  /** With distinct ids, the inverted table maps every id back to its own
      name. */
  lemma {:induction false} InvertedEntry(table: seq<(string, string)>, k: nat)
    requires k < |table| && ValuesDistinct(table)
    ensures table[k].1 in Inverted(table) && Inverted(table)[table[k].1] == table[k].0
  {
    var n := |table| - 1;
    if k < n {
      InvertedEntry(table[..n], k);
    }
  }

  /** `_name`: the name of a vertex id, by its prefix and the inverted
      tables, with a placeholder for an id it cannot name. */
  function Name(t: Tables, vid: string): string {
    if StartsWith(vid, "player") then
      var m := Inverted(t.players);
      if vid in m then m[vid] else "unknown player"
    else if StartsWith(vid, "team") then
      var m := Inverted(t.teams);
      if vid in m then m[vid] else "unkonwn team"
    else "unkonwn"
  }

  /** `_vid`: the id of a name, players first; an unknown name re-raises
      with no active exception. */
  function Vid(t: Tables, name: string): (r: Result<string>)
    ensures r.Ok? <==> Lookup(t.players, name).Some? || Lookup(t.teams, name).Some?
  {
    match Lookup(t.players, name)
    case Some(v) => Ok(v)
    case None =>
      match Lookup(t.teams, name)
      case Some(v) => Ok(v)
      case None => Err("RuntimeError: No active exception to reraise")
  }

  /** Tables loaded as dictionaries (one entry per name) whose ids are
      distinct and carry their kind's prefix. */
  predicate WellFormed(t: Tables) {
    KeysDistinct(t.players) && KeysDistinct(t.teams) &&
    ValuesDistinct(t.players) && ValuesDistinct(t.teams) &&
    (forall k | 0 <= k < |t.players| :: StartsWith(t.players[k].1, "player")) &&
    (forall k | 0 <= k < |t.teams| :: StartsWith(t.teams[k].1, "team"))
  }

  /** Naming the id found for a name gives the name back. */
  lemma NameOfVid(t: Tables, name: string)
    requires WellFormed(t)
    ensures Vid(t, name).Ok? ==> Name(t, Vid(t, name).value) == name
  {
    match Lookup(t.players, name)
    case Some(v) =>
      var k :| 0 <= k < |t.players| && t.players[k] == (name, v);
      InvertedEntry(t.players, k);
    case None =>
      match Lookup(t.teams, name)
      case Some(v) =>
        var k :| 0 <= k < |t.teams| && t.teams[k] == (name, v);
        InvertedEntry(t.teams, k);
        assert v[0] == 't';
      case None =>
  }

  // ------------------------------------------------------------ dispatch

  /** The action `SiwiActions.get` builds; a configured action is named by
      its class. */
  datatype ActionChoice = GnnAction | ImprovedRelationshipAction | ConfiguredAction(className: string) | FallbackAction

  /** The intent acted upon: the first one, "fallback" when there is none. */
  function IntentName(intents: seq<string>): string {
    if |intents| > 0 then intents[0] else "fallback"
  }

  /** `SiwiActions.get`: the similarity and relationship intents have fixed
      actions; other intents are looked up in the configured intent table
      (intent to action class); anything else falls back. */
  function GetAction(intent: Classification, intentMap: map<string, string>): ActionChoice {
    var name := IntentName(intent.intents);
    if name == "find_similar" then GnnAction
    else if name == "relationship" then ImprovedRelationshipAction
    else if name in intentMap then ConfiguredAction(intentMap[name])
    else FallbackAction
  }

  /** The configured table cannot override the two fixed intents, an
      unconfigured intent falls back, and no intent at all is handled as
      "fallback". */
  lemma GetActionSound(intent: Classification, m1: map<string, string>, m2: map<string, string>)
    ensures var name := IntentName(intent.intents);
      (name == "find_similar" || name == "relationship" ==> GetAction(intent, m1) == GetAction(intent, m2)) &&
      (name != "find_similar" && name != "relationship" && name !in m1 ==> GetAction(intent, m1) == FallbackAction) &&
      (name != "find_similar" && name != "relationship" && name in m1 ==> GetAction(intent, m1) == ConfiguredAction(m1[name])) &&
      (intent.intents == [] ==> GetAction(intent, m1) == GetAction(Classification(intent.entities, ["fallback"]), m1))
  {
  }

  // ------------------------------------------------------------ construction

  /** What the two-entity actions record when built. */
  datatype PairState = PairState(
    entityLeft: Option<string>, entityRight: Option<string>,
    leftVid: Option<string>, rightVid: Option<string>, error: bool)

  /** The constructors of the relationship actions: exactly two entities
      are unpacked and both resolved; a failure leaves the fields not yet
      assigned unset and records the error. */
  function NewPairAction(t: Tables, entities: seq<(string, string)>): PairState {
    if |entities| != 2 then PairState(None, None, None, None, true)
    else
      var left := entities[0].0;
      var right := entities[1].0;
      match Vid(t, left)
      case Err(_) => PairState(Some(left), Some(right), None, None, true)
      case Ok(lv) =>
        match Vid(t, right)
        case Err(_) => PairState(Some(left), Some(right), Some(lv), None, true)
        case Ok(rv) => PairState(Some(left), Some(right), Some(lv), Some(rv), false)
  }

  /** What the one-entity actions record when built. */
  datatype PlayerState = PlayerState(player0: Option<string>, player0Vid: Option<string>, error: bool)

  /** The constructors of the serve and follow actions: the first entity is
      taken and resolved. */
  function NewPlayerAction(t: Tables, entities: seq<(string, string)>): PlayerState {
    if entities == [] then PlayerState(None, None, true)
    else
      var p := entities[0].0;
      match Vid(t, p)
      case Err(_) => PlayerState(Some(p), None, true)
      case Ok(v) => PlayerState(Some(p), Some(v), false)
  }

  /** A built action records an error exactly when an id it needs is
      missing, and otherwise holds ids that name its entities back. */
  lemma ConstructionSound(t: Tables, entities: seq<(string, string)>)
    requires WellFormed(t)
    ensures var s := NewPairAction(t, entities);
      (s.error <==> s.leftVid.None? || s.rightVid.None?) &&
      (!s.error ==>
        s.entityLeft.Some? && s.entityRight.Some? &&
        Name(t, s.leftVid.value) == s.entityLeft.value && Name(t, s.rightVid.value) == s.entityRight.value)
    ensures var p := NewPlayerAction(t, entities);
      (p.error <==> p.player0Vid.None?) &&
      (!p.error ==>
        p.player0.Some? && Name(t, p.player0Vid.value) == p.player0.value)
  {
    if |entities| == 2 {
      NameOfVid(t, entities[0].0);
      NameOfVid(t, entities[1].0);
    }
    if entities != [] {
      NameOfVid(t, entities[0].0);
    }
  }

  // ------------------------------------------------------------ the error check

  const ErrorMessage: string := "Opps, something went wrong."

  /** The relationship, serve and follow actions call `_error_check` and
      drop its answer, then build their query from the id fields; a field a
      failed construction never assigned raises on that read. The query is
      what `execute` sends next. */
  function ServeQueryAsWritten(s: PlayerState): Result<string> {
    match s.player0Vid
    case None => Err("AttributeError")
    case Some(vid) => Ok(ServeQuery(vid))
  }

  function FollowQueryAsWritten(s: PlayerState): Result<string> {
    match s.player0Vid
    case None => Err("AttributeError")
    case Some(vid) => Ok(FollowQuery(vid))
  }

  /** `left_vid` is read before `right_vid`. */
  function RelationshipQueryAsWritten(s: PairState): Result<string> {
    match s.leftVid
    case None => Err("AttributeError")
    case Some(left) =>
      match s.rightVid
      case None => Err("AttributeError")
      case Some(right) => Ok(RelationshipQuery(left, right))
  }

  /** A failed construction makes `execute` raise instead of answering with
      the error message; a successful one sends the query for the looked-up
      vids. */
  lemma ErrorCheckDiscarded(t: Tables, entities: seq<(string, string)>)
    ensures var p := NewPlayerAction(t, entities);
      (p.error ==> ServeQueryAsWritten(p) == Err("AttributeError") && FollowQueryAsWritten(p) == Err("AttributeError")) &&
      (!p.error ==> ServeQueryAsWritten(p) == Ok(ServeQuery(p.player0Vid.value)) &&
                    FollowQueryAsWritten(p) == Ok(FollowQuery(p.player0Vid.value)))
    ensures var s := NewPairAction(t, entities);
      (s.error ==> RelationshipQueryAsWritten(s) == Err("AttributeError")) &&
      (!s.error ==> RelationshipQueryAsWritten(s) == Ok(RelationshipQuery(s.leftVid.value, s.rightVid.value)))
  {
    PlayerRecordsError(t, entities);
    PairRecordsError(t, entities);
  }

  lemma PlayerRecordsError(t: Tables, entities: seq<(string, string)>)
    ensures NewPlayerAction(t, entities).error <==> NewPlayerAction(t, entities).player0Vid.None?
  {
  }

  lemma PairRecordsError(t: Tables, entities: seq<(string, string)>)
    ensures var s := NewPairAction(t, entities);
      s.error <==> s.leftVid.None? || s.rightVid.None?
  {
  }

  // ------------------------------------------------------------ query outcomes

  /** A query's outcome: the database reported failure, or these rows. */
  datatype Query<R> = QueryFailed | QueryRows(rows: seq<R>)

  function QueryError(query: string): string {
    "Something is wrong on Graph Database connection when query " + query
  }

  function Plural(n: int): string {
    if n > 1 then "s" else ""
  }

  // ------------------------------------------------------------ serve

  /** One serve edge: the team's id and the edge's years. */
  datatype ServeRow = ServeRow(teamVid: string, startYear: int, endYear: int)

  function ServeQuery(vid: string): string {
    "USE basketballplayer;MATCH p=(v)-[e:serve*1]->(v1) WHERE id(v) == \"" + vid + "\"     RETURN p LIMIT 100;"
  }

  /** A serve line as written: the start year printed twice. */
  function ServeLineAsWritten(t: Tables, row: ServeRow): string {
    Name(t, row.teamVid) + " from " + IntToString(row.startYear) + " to " + IntToString(row.startYear) + "; "
  }

  /** The written line never shows when the player left the team. */
  lemma ServeLineIgnoresEndYear(t: Tables, row: ServeRow, otherEnd: int)
    ensures ServeLineAsWritten(t, row) == ServeLineAsWritten(t, row.(endYear := otherEnd))
  {
  }

  /** A serve line: the team, then the years from start to end. */
  function ServeLine(t: Tables, row: ServeRow): string {
    Name(t, row.teamVid) + " from " + IntToString(row.startYear) + " to " + IntToString(row.endYear) + "; "
  }

  /** The corrected line ends with the end year. */
  lemma ServeLineShowsEndYear(t: Tables, row: ServeRow)
    ensures var line := ServeLine(t, row);
      var tail := " to " + IntToString(row.endYear) + "; ";
      |tail| <= |line| && line[|line| - |tail|..] == tail
  {
    var head := Name(t, row.teamVid) + " from " + IntToString(row.startYear);
    var tail := " to " + IntToString(row.endYear) + "; ";
    assert ServeLine(t, row) == head + tail;
    assert (head + tail)[|head|..] == tail;
  }

  function ServeLines(t: Tables, rows: seq<ServeRow>): string {
    if rows == [] then "" else ServeLines(t, rows[..|rows| - 1]) + ServeLine(t, rows[|rows| - 1])
  }

  /** `ServeAction.execute` with the guard corrected. */
  function ServeOutcome(t: Tables, entities: seq<(string, string)>, q: Query<ServeRow>): string {
    var s := NewPlayerAction(t, entities);
    if s.error then ErrorMessage
    else
      match q
      case QueryFailed => QueryError(ServeQuery(s.player0Vid.value))
      case QueryRows(rows) =>
        if rows == [] then "There is no teams served by " + s.player0.value
        else
          s.player0.value + " had served " + IntToString(|rows|) + " team" + Plural(|rows|) + ". " + ServeLines(t, rows)
  }

  // ------------------------------------------------------------ follow

  /** One follow edge: the followed player's id and the edge's degree. */
  datatype FollowRow = FollowRow(playerVid: string, degree: int)

  function FollowQuery(vid: string): string {
    "USE basketballplayer;MATCH p=(v)-[e:follow*1]->(v1) WHERE id(v) == \"" + vid + "\"     RETURN p LIMIT 100;"
  }

  function FollowLine(t: Tables, row: FollowRow): string {
    Name(t, row.playerVid) + " in degree " + IntToString(row.degree) + "; "
  }

  function FollowLines(t: Tables, rows: seq<FollowRow>): string {
    if rows == [] then "" else FollowLines(t, rows[..|rows| - 1]) + FollowLine(t, rows[|rows| - 1])
  }

  /** `FollowAction.execute` with the guard corrected. */
  function FollowOutcome(t: Tables, entities: seq<(string, string)>, q: Query<FollowRow>): string {
    var s := NewPlayerAction(t, entities);
    if s.error then ErrorMessage
    else
      match q
      case QueryFailed => QueryError(FollowQuery(s.player0Vid.value))
      case QueryRows(rows) =>
        if rows == [] then "There is no players followed by " + s.player0.value
        else
          s.player0.value + " had followed " + IntToString(|rows|) + " player" + Plural(|rows|) + ". " + FollowLines(t, rows)
  }

  /** "team" after a count, made plural only for more than one. */
  lemma CountedTeams(head: string, n: int, lines: string)
    ensures head + " team" + Plural(n) + ". " + lines == head + (if n > 1 then " teams. " else " team. ") + lines
  {
    if n > 1 {
      assert " team" + Plural(n) + ". " == " teams. ";
    } else {
      assert " team" + Plural(n) + ". " == " team. ";
    }
    assert head + " team" + Plural(n) + ". " + lines == head + (" team" + Plural(n) + ". ") + lines;
  }

  /** "player" after a count, made plural only for more than one. */
  lemma CountedPlayers(head: string, n: int, lines: string)
    ensures head + " player" + Plural(n) + ". " + lines == head + (if n > 1 then " players. " else " player. ") + lines
  {
    if n > 1 {
      assert " player" + Plural(n) + ". " == " players. ";
    } else {
      assert " player" + Plural(n) + ". " == " player. ";
    }
    assert head + " player" + Plural(n) + ". " + lines == head + (" player" + Plural(n) + ". ") + lines;
  }

  lemma ServeUnfold(t: Tables, entities: seq<(string, string)>, rows: seq<ServeRow>)
    requires !NewPlayerAction(t, entities).error && rows != []
    ensures ServeOutcome(t, entities, QueryRows(rows)) == NewPlayerAction(t, entities).player0.value + " had served " + IntToString(|rows|) + " team" + Plural(|rows|) + ". " + ServeLines(t, rows)
  {
  }

  lemma FollowUnfold(t: Tables, entities: seq<(string, string)>, rows: seq<FollowRow>)
    requires !NewPlayerAction(t, entities).error && rows != []
    ensures FollowOutcome(t, entities, QueryRows(rows)) == NewPlayerAction(t, entities).player0.value + " had followed " + IntToString(|rows|) + " player" + Plural(|rows|) + ". " + FollowLines(t, rows)
  {
  }

  /** The serve answer says "teams" only for more than one row, and lists
      one line per row after the count. */
  lemma ServePluralisation(t: Tables, entities: seq<(string, string)>, rows: seq<ServeRow>)
    requires !NewPlayerAction(t, entities).error && rows != []
    ensures var head := NewPlayerAction(t, entities).player0.value + " had served " + IntToString(|rows|);
      ServeOutcome(t, entities, QueryRows(rows)) == head + (if |rows| > 1 then " teams. " else " team. ") + ServeLines(t, rows)
  {
    var head := NewPlayerAction(t, entities).player0.value + " had served " + IntToString(|rows|);
    ServeUnfold(t, entities, rows);
    CountedTeams(head, |rows|, ServeLines(t, rows));
  }

  /** The follow answer says "players" only for more than one row. */
  lemma FollowPluralisation(t: Tables, entities: seq<(string, string)>, rows: seq<FollowRow>)
    requires !NewPlayerAction(t, entities).error && rows != []
    ensures var head := NewPlayerAction(t, entities).player0.value + " had followed " + IntToString(|rows|);
      FollowOutcome(t, entities, QueryRows(rows)) == head + (if |rows| > 1 then " players. " else " player. ") + FollowLines(t, rows)
  {
    var head := NewPlayerAction(t, entities).player0.value + " had followed " + IntToString(|rows|);
    FollowUnfold(t, entities, rows);
    CountedPlayers(head, |rows|, FollowLines(t, rows));
  }

  /** Builds the line list of `ServeAction.execute`. */
  method ServeLinesLoop(t: Tables, rows: seq<ServeRow>) returns (s: string)
    ensures s == ServeLines(t, rows)
  {
    s := "";
    var i := 0;
    while i < |rows|
      invariant 0 <= i <= |rows|
      invariant s == ServeLines(t, rows[..i])
    {
      assert rows[..i + 1][..i] == rows[..i];
      s := s + ServeLine(t, rows[i]);
      i := i + 1;
    }
    assert rows[..i] == rows;
  }

  /** `ServeAction.execute`, with the guard corrected: a failed construction
      answers the error message. */
  method ServeExecute(t: Tables, entities: seq<(string, string)>, q: Query<ServeRow>) returns (answer: string)
    ensures answer == ServeOutcome(t, entities, q)
  {
    var s := NewPlayerAction(t, entities);
    if s.error {
      return ErrorMessage;
    }
    match q
    case QueryFailed =>
      answer := QueryError(ServeQuery(s.player0Vid.value));
    case QueryRows(rows) =>
      if rows == [] {
        answer := "There is no teams served by " + s.player0.value;
      } else {
        var lines := ServeLinesLoop(t, rows);
        answer := s.player0.value + " had served " + IntToString(|rows|) + " team" + Plural(|rows|) + ". " + lines;
      }
  }

  /** Builds the line list of `FollowAction.execute`. */
  method FollowLinesLoop(t: Tables, rows: seq<FollowRow>) returns (s: string)
    ensures s == FollowLines(t, rows)
  {
    s := "";
    var i := 0;
    while i < |rows|
      invariant 0 <= i <= |rows|
      invariant s == FollowLines(t, rows[..i])
    {
      assert rows[..i + 1][..i] == rows[..i];
      s := s + FollowLine(t, rows[i]);
      i := i + 1;
    }
    assert rows[..i] == rows;
  }

  /** `FollowAction.execute`, with the guard corrected: a failed construction
      answers the error message. */
  method FollowExecute(t: Tables, entities: seq<(string, string)>, q: Query<FollowRow>) returns (answer: string)
    ensures answer == FollowOutcome(t, entities, q)
  {
    var s := NewPlayerAction(t, entities);
    if s.error {
      return ErrorMessage;
    }
    match q
    case QueryFailed =>
      answer := QueryError(FollowQuery(s.player0Vid.value));
    case QueryRows(rows) =>
      if rows == [] {
        answer := "There is no players followed by " + s.player0.value;
      } else {
        var lines := FollowLinesLoop(t, rows);
        answer := s.player0.value + " had followed " + IntToString(|rows|) + " player" + Plural(|rows|) + ". " + lines;
      }
  }

  // ------------------------------------------------------------ relationship

  /** One edge of a found path: its type and the vertex it reaches. */
  datatype PathEdge = PathEdge(edgeName: string, endVid: string)

  /** A found path: where it starts and its edges in order. */
  datatype PathRow = PathRow(startVid: string, edges: seq<PathEdge>)

  function RelationshipQuery(left: string, right: string): string {
    "USE basketballplayer;FIND NOLOOP PATH FROM \"" + left + "\" TO \"" + right + "\" OVER * BIDIRECT UPTO 4 STEPS YIELD path AS p;"
  }

  function EdgeText(t: Tables, e: PathEdge): string {
    " " + e.edgeName + "s " + Name(t, e.endVid)
  }

  function EdgesText(t: Tables, edges: seq<PathEdge>): string {
    if edges == [] then "" else EdgesText(t, edges[..|edges| - 1]) + EdgeText(t, edges[|edges| - 1])
  }

  /** A path told as its start's name, then each edge's type and target. */
  function PathText(t: Tables, path: PathRow): string {
    Name(t, path.startVid) + EdgesText(t, path.edges)
  }

  /** The text of a path that follows a single edge. */
  lemma PathTextOneEdge(t: Tables, start: string, e: PathEdge)
    ensures PathText(t, PathRow(start, [e])) == Name(t, start) + " " + e.edgeName + "s " + Name(t, e.endVid)
  {
    assert [e][..0] == [];
    assert EdgesText(t, [e]) == EdgeText(t, e);
    assert Name(t, start) + EdgeText(t, e) == Name(t, start) + " " + e.edgeName + "s " + Name(t, e.endVid);
  }

  lemma EdgesTextStep(t: Tables, edges: seq<PathEdge>, i: nat)
    requires i < |edges|
    ensures EdgesText(t, edges[..i + 1]) == EdgesText(t, edges[..i]) + EdgeText(t, edges[i])
  {
    assert edges[..i + 1][..i] == edges[..i];
  }

  /** Telling one more edge of a path appends that edge's text. */
  lemma PathTextStep(t: Tables, start: string, edges: seq<PathEdge>, i: nat)
    requires i < |edges|
    ensures PathText(t, PathRow(start, edges[..i + 1])) == PathText(t, PathRow(start, edges[..i])) + EdgeText(t, edges[i])
  {
    EdgesTextStep(t, edges, i);
    var name := Name(t, start);
    assert name + (EdgesText(t, edges[..i]) + EdgeText(t, edges[i])) == (name + EdgesText(t, edges[..i])) + EdgeText(t, edges[i]);
  }

  method PathTextLoop(t: Tables, path: PathRow) returns (s: string)
    ensures s == PathText(t, path)
  {
    var edges := path.edges;
    s := Name(t, path.startVid);
    var i := 0;
    assert edges[..0] == [];
    while i < |edges|
      invariant 0 <= i <= |edges|
      invariant s == PathText(t, PathRow(path.startVid, edges[..i]))
    {
      PathTextStep(t, path.startVid, edges, i);
      s := s + EdgeText(t, edges[i]);
      i := i + 1;
    }
    assert edges[..i] == edges;
  }

  /** `RelationshipAction.execute` with the guard corrected: the first path
      found is told, with the number of paths. */
  function RelationshipOutcome(t: Tables, entities: seq<(string, string)>, q: Query<PathRow>): string {
    var s := NewPairAction(t, entities);
    if s.error then ErrorMessage
    else
      var left := s.entityLeft.value;
      var right := s.entityRight.value;
      match q
      case QueryFailed => QueryError(RelationshipQuery(s.leftVid.value, s.rightVid.value))
      case QueryRows(rows) =>
        if rows == [] then "There is no relationship between " + left + " and " + right
        else
          "There are at least " + IntToString(|rows|) + " relations between " + left + " and " + right
          + ", one relation path is: " + PathText(t, rows[0]) + "."
  }

  /** The corrected actions answer with the error message whenever their
      construction failed, whatever the database would have said. */
  lemma ErrorAnswered(t: Tables, entities: seq<(string, string)>, serves: Query<ServeRow>,
                      follows: Query<FollowRow>, paths: Query<PathRow>)
    ensures NewPlayerAction(t, entities).error ==>
      ServeOutcome(t, entities, serves) == ErrorMessage && FollowOutcome(t, entities, follows) == ErrorMessage
    ensures NewPairAction(t, entities).error ==> RelationshipOutcome(t, entities, paths) == ErrorMessage
  {
  }

  /** `RelationshipAction.execute`, with the guard corrected: a failed
      construction answers the error message. */
  method RelationshipExecute(t: Tables, entities: seq<(string, string)>, q: Query<PathRow>) returns (answer: string)
    ensures answer == RelationshipOutcome(t, entities, q)
  {
    var s := NewPairAction(t, entities);
    if s.error {
      return ErrorMessage;
    }
    var left := s.entityLeft.value;
    var right := s.entityRight.value;
    match q
    case QueryFailed =>
      answer := QueryError(RelationshipQuery(s.leftVid.value, s.rightVid.value));
    case QueryRows(rows) =>
      if rows == [] {
        answer := "There is no relationship between " + left + " and " + right;
      } else {
        var text := PathTextLoop(t, rows[0]);
        answer := "There are at least " + IntToString(|rows|) + " relations between " + left + " and " + right
          + ", one relation path is: " + text + ".";
      }
  }

  /** `ImprovedRelationshipAction.execute`: the error message for an action
      that failed to build, else the path answer, followed by the embedding
      similarity when one was computed (`similarity` is the score already
      rendered with three decimals; `None` when there is no GNN processor or
      it failed). */
  method ImprovedRelationshipExecute(t: Tables, entities: seq<(string, string)>, q: Query<PathRow>, similarity: Option<string>)
    returns (answer: string)
    ensures var s := NewPairAction(t, entities);
      s.error ==> answer == ErrorMessage
    ensures var s := NewPairAction(t, entities);
      !s.error ==> answer == ImprovedAnswer(t, s.entityLeft.value, s.entityRight.value, s.leftVid.value, s.rightVid.value, q)
                             + GnnNote(s.entityLeft.value, s.entityRight.value, similarity)
  {
    var s := NewPairAction(t, entities);
    if s.error {
      return ErrorMessage;
    }
    var left := s.entityLeft.value;
    var right := s.entityRight.value;
    var traditional: string;
    match q {
      case QueryFailed =>
        traditional := QueryFailedNote + RelationshipQuery(s.leftVid.value, s.rightVid.value);
      case QueryRows(rows) =>
        if rows == [] {
          traditional := left + " 和 " + right + " " + NoPathNote;
        } else {
          var text := PathTextLoop(t, rows[0]);
          traditional := "找到 " + IntToString(|rows|) + PathsFoundNote + text;
        }
    }
    answer := traditional + GnnNote(left, right, similarity);
  }

  const QueryFailedNote := "图数据库查询失败: "
  const NoPathNote := "之间没有直接的关系路径"
  const PathsFoundNote := " 条关系路径，其中一条是: "

  /** The traditional-query part of the improved answer. */
  function ImprovedAnswer(t: Tables, left: string, right: string, leftVid: string, rightVid: string, q: Query<PathRow>): string {
    match q
    case QueryFailed => QueryFailedNote + RelationshipQuery(leftVid, rightVid)
    case QueryRows(rows) =>
      if rows == [] then left + " 和 " + right + " " + NoPathNote
      else "找到 " + IntToString(|rows|) + PathsFoundNote + PathText(t, rows[0])
  }

  /** What a caller of the improved action can rely on from its traditional
      part: a failed query is reported with its query text, an empty result
      names both entities, otherwise the path count and the first path are
      shown. */
  lemma ImprovedAnswerSound(t: Tables, left: string, right: string, leftVid: string, rightVid: string,
                            q: Query<PathRow>)
    ensures q.QueryFailed? ==>
      var r := ImprovedAnswer(t, left, right, leftVid, rightVid, q);
      StartsWith(r, QueryFailedNote) && EndsWith(r, RelationshipQuery(leftVid, rightVid))
    ensures q == QueryRows([]) ==>
      var r := ImprovedAnswer(t, left, right, leftVid, rightVid, q);
      StartsWith(r, left) && Contains(r, right) && EndsWith(r, NoPathNote)
    ensures q.QueryRows? && q.rows != [] ==>
      var r := ImprovedAnswer(t, left, right, leftVid, rightVid, q);
      StartsWith(r, "找到 " + IntToString(|q.rows|)) && EndsWith(r, PathText(t, q.rows[0]))
  {
    var r := ImprovedAnswer(t, left, right, leftVid, rightVid, q);
    match q {
      case QueryFailed =>
        Affixes(QueryFailedNote, "", RelationshipQuery(leftVid, rightVid));
        assert QueryFailedNote + "" + RelationshipQuery(leftVid, rightVid) == r;
      case QueryRows(rows) =>
        if rows == [] {
          var mid := " 和 ";
          Affixes(left, mid, right + " " + NoPathNote);
          assert left + mid + (right + " " + NoPathNote) == r;
          Infix(left + mid, right, " " + NoPathNote);
          assert left + mid + right + (" " + NoPathNote) == r;
          Affixes(left + mid + right + " ", "", NoPathNote);
          assert left + mid + right + " " + "" + NoPathNote == r;
        } else {
          var head := "找到 " + IntToString(|rows|);
          Affixes(head, PathsFoundNote, PathText(t, rows[0]));
        }
    }
  }

  /** The GNN note only follows the traditional answer: it is absent without
      a score, and with one it names both entities and ends with the score. */
  lemma GnnNoteSound(traditional: string, left: string, right: string, similarity: Option<string>)
    ensures var a := traditional + GnnNote(left, right, similarity);
      StartsWith(a, traditional)
      && (similarity.None? ==> a == traditional)
      && (similarity.Some? ==> EndsWith(a, similarity.value) && Contains(a, left) && Contains(a, right))
  {
    var note := GnnNote(left, right, similarity);
    var a := traditional + note;
    Affixes(traditional, "", note);
    assert traditional + "" + note == a;
    match similarity {
      case None =>
      case Some(score) =>
        var pre := traditional + "\n\n🤖 GNN分析：";
        var mid := " 和 ";
        var sim := " 的嵌入相似度为 ";
        assert a == pre + left + mid + right + sim + score;
        assert OccursAt(a, left, |pre|);
        assert OccursAt(a, right, |pre| + |left| + |mid|);
        Affixes(pre + left + mid + right + sim, "", score);
        assert pre + left + mid + right + sim + "" + score == a;
    }
  }

  function GnnNote(left: string, right: string, similarity: Option<string>): string {
    match similarity
    case None => ""
    case Some(score) => "\n\n🤖 GNN分析：" + left + " 和 " + right + " 的嵌入相似度为 " + score
  }
}
