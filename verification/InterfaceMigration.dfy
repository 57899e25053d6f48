/** The migration of stored messages to turns (src/reckoning/interface_store.py:1222-1305). */
module InterfaceMigration {
  import opened Wrappers
  import opened Text
  import Conversation

  datatype Role = User | Assistant

  datatype MessageRow = MessageRow(channel: string, sessionId: string, position: int, role: Role, content: string)

  type Session = (string, string)

  function SessionOf(m: MessageRow): Session { (m.channel, m.sessionId) }

  // ---------------------------------------------------------------------
  // The order check
  // ---------------------------------------------------------------------

  function Count(rows: seq<MessageRow>, session: Session): nat {
    if rows == [] then 0
    else
      var last := |rows| - 1;
      Count(rows[..last], session) + (if SessionOf(rows[last]) == session then 1 else 0)
  }

  function RoleAt(position: nat): Role { if position % 2 == 0 then User else Assistant }

  /** A row stands where the rows of its session before it say. */
  predicate InPlace(rows: seq<MessageRow>, i: nat)
    requires i < |rows|
  {
    var expected := Count(rows[..i], SessionOf(rows[i]));
    rows[i].position == expected && rows[i].role == RoleAt(expected)
  }

  predicate Accepted(rows: seq<MessageRow>) { forall i :: 0 <= i < |rows| ==> InPlace(rows, i) }

  method ValidateLegacyTurnOrder(rows: seq<MessageRow>) returns (ok: bool)
    ensures ok <==> Accepted(rows)
  {
    var expectedPositions: map<Session, nat> := map[];
    for i := 0 to |rows|
      invariant forall s :: Count(rows[..i], s) == if s in expectedPositions then expectedPositions[s] else 0
      invariant forall k :: 0 <= k < i ==> InPlace(rows, k)
    {
      assert rows[..i + 1][..i] == rows[..i];
      var session := SessionOf(rows[i]);
      var expected := if session in expectedPositions then expectedPositions[session] else 0;
      var role := if expected % 2 == 0 then User else Assistant;
      if rows[i].position != expected || rows[i].role != role {
        assert !InPlace(rows, i);
        return false;
      }
      expectedPositions := expectedPositions[session := expected + 1];
    }
    ok := true;
  }

  function RowsOf(rows: seq<MessageRow>, session: Session): (r: seq<MessageRow>)
    ensures |r| == Count(rows, session)
  {
    if rows == [] then []
    else
      var last := |rows| - 1;
      RowsOf(rows[..last], session) + (if SessionOf(rows[last]) == session then [rows[last]] else [])
  }

  /** Positions 0 to n-1, user and assistant in turn, the user first. */
  predicate Alternating(rows: seq<MessageRow>) {
    forall k :: 0 <= k < |rows| ==> rows[k].position == k && rows[k].role == RoleAt(k)
  }

  lemma AcceptedPrefix(rows: seq<MessageRow>)
    requires rows != []
    ensures Accepted(rows) <==> Accepted(rows[..|rows| - 1]) && InPlace(rows, |rows| - 1)
  {
    var rest := rows[..|rows| - 1];
    forall i | 0 <= i < |rest| ensures InPlace(rest, i) == InPlace(rows, i) {
      assert rest[..i] == rows[..i];
    }
  }

  lemma AlternatingPrefix(rows: seq<MessageRow>, m: MessageRow)
    ensures Alternating(rows + [m]) <==> Alternating(rows) && m.position == |rows| && m.role == RoleAt(|rows|)
  {
    var all := rows + [m];
    assert forall k :: 0 <= k < |rows| ==> all[k] == rows[k];
    assert all[|rows|] == m;
  }

  lemma LastInPlace(rows: seq<MessageRow>)
    requires rows != []
    ensures var rest, last := rows[..|rows| - 1], rows[|rows| - 1];
            && (InPlace(rows, |rows| - 1) && Alternating(RowsOf(rest, SessionOf(last)))
                <==> Alternating(RowsOf(rows, SessionOf(last))))
            && forall s :: s != SessionOf(last) ==> RowsOf(rows, s) == RowsOf(rest, s)
  {
    var rest, last := rows[..|rows| - 1], rows[|rows| - 1];
    AlternatingPrefix(RowsOf(rest, SessionOf(last)), last);
    hide Alternating;
  }

  ghost predicate SessionsAlternate(rows: seq<MessageRow>) { forall s :: Alternating(RowsOf(rows, s)) }

  lemma SessionsStep(rows: seq<MessageRow>, rest: seq<MessageRow>)
    requires rows != [] && rest == rows[..|rows| - 1]
    ensures SessionsAlternate(rows) <==> SessionsAlternate(rest) && InPlace(rows, |rows| - 1)
  {
    LastInPlace(rows);
    var mine := SessionOf(rows[|rows| - 1]);
    hide Alternating, InPlace;
    if SessionsAlternate(rows) {
      assert Alternating(RowsOf(rows, mine));
      forall s ensures Alternating(RowsOf(rest, s)) { assert Alternating(RowsOf(rows, s)); }
    }
    if SessionsAlternate(rest) && InPlace(rows, |rows| - 1) {
      assert Alternating(RowsOf(rest, mine));
      forall s ensures Alternating(RowsOf(rows, s)) { assert Alternating(RowsOf(rest, s)); }
    }
  }

  /** The check accepts exactly the messages whose every session, taken alone, is alternating. */
  lemma {:induction false} AcceptedExactly(rows: seq<MessageRow>)
    ensures Accepted(rows) <==> SessionsAlternate(rows)
    decreases |rows|
  {
    if rows != [] {
      AcceptedPrefix(rows);
      AcceptedExactly(rows[..|rows| - 1]);
      SessionsStep(rows, rows[..|rows| - 1]);
    }
  }

  // ---------------------------------------------------------------------
  // Building turns
  // ---------------------------------------------------------------------

  type Key = (string, string, int)

  datatype TurnState = Pending | Completed

  datatype Turn = Turn(key: Key, userSpeech: string, assistantSpeech: Option<string>, notices: seq<string>)

  function KeyOf(m: MessageRow): Key { (m.channel, m.sessionId, m.position / 2) }

  /** `"completed" if assistant_speech else "pending"` */
  function StateOf(t: Turn): TurnState {
    if t.assistantSpeech.Some? && t.assistantSpeech.value != "" then Completed else Pending
  }

  function TurnId(key: Key): string
    requires key.2 >= 0
  {
    "legacy-" + key.0 + "-" + key.1 + "-" + Decimal(key.2)
  }

  type Digits = char -> bool

  function SpeechOf(digits: Digits, content: string): string {
    Conversation.SplitLegacyNoticePrefix(content, digits).0
  }

  function NoticesOf(digits: Digits, content: string): seq<string> {
    Conversation.SplitLegacyNoticePrefix(content, digits).1
  }

  function Answered(digits: Digits, t: Turn, content: string): Turn {
    t.(assistantSpeech := Some(SpeechOf(digits, content)), notices := NoticesOf(digits, content))
  }

  /** The rows of one session stand together, as the query returns them. */
  ghost predicate Grouped(rows: seq<MessageRow>) {
    forall i, j, k :: 0 <= i < j < k < |rows| && SessionOf(rows[i]) == SessionOf(rows[k]) ==>
      SessionOf(rows[j]) == SessionOf(rows[i])
  }

  /** A user message opens a turn and an assistant message closes the last one. */
  function Turns(digits: Digits, rows: seq<MessageRow>): seq<Turn> {
    if rows == [] then []
    else
      var last := rows[|rows| - 1];
      var turns := Turns(digits, rows[..|rows| - 1]);
      if last.role == User then turns + [Turn(KeyOf(last), last.content, None, [])]
      else if turns == [] then []
      else turns[..|turns| - 1] + [Answered(digits, turns[|turns| - 1], last.content)]
  }

  lemma {:induction false} PositionBelowCount(rows: seq<MessageRow>, i: nat)
    requires Accepted(rows) && i < |rows|
    ensures 0 <= rows[i].position < Count(rows, SessionOf(rows[i]))
    decreases |rows|
  {
    var last := |rows| - 1;
    AcceptedPrefix(rows);
    if i < last {
      PositionBelowCount(rows[..last], i);
    } else {
      assert InPlace(rows, last);
    }
  }

  lemma {:induction false} CountedRowExists(rows: seq<MessageRow>, session: Session) returns (i: nat)
    requires Count(rows, session) > 0
    ensures i < |rows| && SessionOf(rows[i]) == session
    decreases |rows|
  {
    var last := |rows| - 1;
    if SessionOf(rows[last]) == session { i := last; } else { i := CountedRowExists(rows[..last], session); }
  }

  /** In accepted rows an assistant message directly follows the user message of its turn, and a user message
      is the first of its turn. */
  lemma Neighbours(rows: seq<MessageRow>, i: nat)
    requires Accepted(rows) && Grouped(rows) && i < |rows|
    ensures rows[i].role == Assistant ==>
              i > 0 && SessionOf(rows[i - 1]) == SessionOf(rows[i]) && rows[i - 1].position + 1 == rows[i].position
              && rows[i - 1].role == User && KeyOf(rows[i - 1]) == KeyOf(rows[i])
    ensures rows[i].role == User ==> forall j :: 0 <= j < i ==> KeyOf(rows[j]) != KeyOf(rows[i])
  {
    var session := SessionOf(rows[i]);
    var before := rows[..i];
    assert InPlace(rows, i);
    forall k | 0 <= k < |before| ensures InPlace(before, k) {
      assert before[..k] == rows[..k] && InPlace(rows, k);
    }
    if rows[i].role == Assistant {
      var k := CountedRowExists(before, session);
      assert SessionOf(rows[k]) == session && SessionOf(rows[i - 1]) == session;
      assert InPlace(rows, i - 1);
      assert before[..i - 1] == rows[..i - 1];
    } else {
      forall j | 0 <= j < i ensures KeyOf(rows[j]) != KeyOf(rows[i]) {
        assert before[j] == rows[j];
        PositionBelowCount(before, j);
      }
    }
  }

  /** The turns of a prefix: distinct keys, each of a user row of the prefix, the last of the last row. */
  ghost predicate TurnsFit(digits: Digits, rows: seq<MessageRow>, n: nat, turns: seq<Turn>)
    requires n <= |rows|
  {
    && turns == Turns(digits, rows[..n])
    && (forall a, b :: 0 <= a < b < |turns| ==> turns[a].key != turns[b].key)
    && (forall a :: 0 <= a < |turns| ==> exists j :: 0 <= j < n && KeyOf(rows[j]) == turns[a].key)
    && (n > 0 ==> turns != [] && turns[|turns| - 1].key == KeyOf(rows[n - 1]))
  }

  lemma TurnsFitNext(digits: Digits, rows: seq<MessageRow>, n: nat, turns: seq<Turn>) returns (next: seq<Turn>)
    requires Accepted(rows) && Grouped(rows) && n < |rows| && TurnsFit(digits, rows, n, turns)
    ensures TurnsFit(digits, rows, n + 1, next)
    ensures rows[n].role == User ==>
              next == turns + [Turn(KeyOf(rows[n]), rows[n].content, None, [])]
              && forall a :: 0 <= a < |turns| ==> turns[a].key != KeyOf(rows[n])
    ensures rows[n].role == Assistant ==>
              turns != [] && turns[|turns| - 1].key == KeyOf(rows[n])
              && next == turns[..|turns| - 1] + [Answered(digits, turns[|turns| - 1], rows[n].content)]
  {
    hide SpeechOf, NoticesOf, Accepted, Grouped;
    Neighbours(rows, n);
    assert rows[..n + 1][..n] == rows[..n];
    next := Turns(digits, rows[..n + 1]);
    forall a | 0 <= a < |next| ensures exists j :: 0 <= j < n + 1 && KeyOf(rows[j]) == next[a].key {
      if a < |turns| {
        var j :| 0 <= j < n && KeyOf(rows[j]) == turns[a].key;
        assert KeyOf(rows[j]) == next[a].key;
      } else {
        assert KeyOf(rows[n]) == next[a].key;
      }
    }
  }

  /** A dictionary in insertion order holds the built turns. */
  ghost predicate Holds(byKey: map<Key, Turn>, keys: seq<Key>, built: seq<Turn>) {
    && |keys| == |built| && (forall a :: 0 <= a < |keys| ==> keys[a] == built[a].key)
    && (forall key :: key in byKey <==> key in keys)
    && (forall a, b :: 0 <= a < b < |keys| ==> keys[a] != keys[b])
    && (forall a :: 0 <= a < |keys| ==> keys[a] in byKey && byKey[keys[a]] == built[a])
  }

  lemma HoldsOneMore(byKey: map<Key, Turn>, keys: seq<Key>, built: seq<Turn>, t: Turn)
    requires Holds(byKey, keys, built) && forall a :: 0 <= a < |built| ==> built[a].key != t.key
    ensures t.key !in byKey && Holds(byKey[t.key := t], keys + [t.key], built + [t])
  {
  }

  lemma HoldsNewLast(byKey: map<Key, Turn>, keys: seq<Key>, built: seq<Turn>, t: Turn)
    requires Holds(byKey, keys, built) && built != [] && built[|built| - 1].key == t.key
    ensures t.key in byKey && byKey[t.key] == built[|built| - 1]
    ensures Holds(byKey[t.key := t], keys, built[..|built| - 1] + [t])
  {
    assert keys[|keys| - 1] == t.key;
  }

  /** The loop over the messages; the dictionary is a map with its keys in insertion order. */
  method BuildTurns(digits: Digits, rows: seq<MessageRow>) returns (turns: seq<Turn>)
    requires Accepted(rows) && Grouped(rows)
    ensures turns == Turns(digits, rows) && TurnsFit(digits, rows, |rows|, turns)
  {
    hide Turns, Accepted, Grouped, SpeechOf, NoticesOf, Holds, TurnsFit;
    var byKey: map<Key, Turn>, keys: seq<Key> := map[], [];
    ghost var built: seq<Turn> := [];
    NoTurns(digits, rows);
    HoldsNothing();
    for i := 0 to |rows|
      invariant TurnsFit(digits, rows, i, built) && Holds(byKey, keys, built)
    {
      ghost var next := TurnsFitNext(digits, rows, i, built);
      var m := rows[i];
      var key := KeyOf(m);
      if m.role == User {
        HoldsOneMore(byKey, keys, built, Turn(key, m.content, None, []));
        keys := keys + [key];
        byKey := byKey[key := Turn(key, m.content, None, [])];
      } else {
        HoldsNewLast(byKey, keys, built, Answered(digits, built[|built| - 1], m.content));
        byKey := byKey[key := Answered(digits, byKey[key], m.content)];
      }
      built := next;
    }
    turns := TurnsInOrder(byKey, keys, built);
    BuiltAll(digits, rows, built);
  }

  lemma HoldsNothing()
    ensures Holds(map[], [], [])
  {
  }

  lemma BuiltAll(digits: Digits, rows: seq<MessageRow>, built: seq<Turn>)
    requires TurnsFit(digits, rows, |rows|, built)
    ensures built == Turns(digits, rows)
  {
    assert rows[..|rows|] == rows;
  }

  /** `turns.values()` */
  method TurnsInOrder(byKey: map<Key, Turn>, keys: seq<Key>, ghost built: seq<Turn>) returns (turns: seq<Turn>)
    requires Holds(byKey, keys, built)
    ensures turns == built
  {
    turns := [];
    for a := 0 to |keys|
      invariant turns == built[..a]
    {
      turns := turns + [byKey[keys[a]]];
    }
  }

  lemma NoTurns(digits: Digits, rows: seq<MessageRow>)
    ensures TurnsFit(digits, rows, 0, [])
  {
    assert rows[..0] == [];
  }

  // ---------------------------------------------------------------------
  // The round trip
  // ---------------------------------------------------------------------

  /** The rows of a turn, as they are kept beside it. */
  function Flat(t: Turn): seq<MessageRow> {
    [MessageRow(t.key.0, t.key.1, 2 * t.key.2, User, t.userSpeech)]
    + (if t.assistantSpeech.Some? then
         [MessageRow(t.key.0, t.key.1, 2 * t.key.2 + 1, Assistant, t.assistantSpeech.value)] else [])
  }

  function Flatten(turns: seq<Turn>): seq<MessageRow> {
    if turns == [] then [] else Flatten(turns[..|turns| - 1]) + Flat(turns[|turns| - 1])
  }

  /** A row after the migration: assistant speech without a notice of its own. */
  function Migrated(digits: Digits, m: MessageRow): MessageRow {
    if m.role == User then m else m.(content := SpeechOf(digits, m.content))
  }

  function AllMigrated(digits: Digits, rows: seq<MessageRow>): (r: seq<MessageRow>)
    ensures |r| == |rows| && forall i :: 0 <= i < |r| ==> r[i] == Migrated(digits, rows[i])
  {
    if rows == [] then []
    else AllMigrated(digits, rows[..|rows| - 1]) + [Migrated(digits, rows[|rows| - 1])]
  }

  lemma {:induction false} FitAll(digits: Digits, rows: seq<MessageRow>, n: nat)
    requires Accepted(rows) && Grouped(rows) && n <= |rows|
    ensures TurnsFit(digits, rows, n, Turns(digits, rows[..n]))
    decreases n
  {
    hide Turns, Accepted, Grouped;
    if n == 0 {
      NoTurns(digits, rows);
    } else {
      FitAll(digits, rows, n - 1);
      var next := TurnsFitNext(digits, rows, n - 1, Turns(digits, rows[..n - 1]));
    }
  }

  lemma EvenAndOdd(rows: seq<MessageRow>, i: nat)
    requires Accepted(rows) && i < |rows|
    ensures rows[i].position == 2 * (rows[i].position / 2) + (if rows[i].role == User then 0 else 1)
  {
    assert InPlace(rows, i);
  }

  /** Flattening the turns gives back every message in its place, with only a known notice taken out of the
      assistant's speech. */
  lemma {:induction false} FlatteningGivesBack(digits: Digits, rows: seq<MessageRow>, n: nat)
    requires Accepted(rows) && Grouped(rows) && n <= |rows|
    ensures Flatten(Turns(digits, rows[..n])) == AllMigrated(digits, rows[..n])
    decreases n
  {
    hide Accepted, Grouped, SpeechOf, NoticesOf;
    if n == 0 {
      assert rows[..0] == [];
    } else {
      assert rows[..n][..n - 1] == rows[..n - 1];
      FlatteningGivesBack(digits, rows, n - 1);
      FitAll(digits, rows, n - 1);
      EvenAndOdd(rows, n - 1);
      FlattenLast(digits, rows, n);
      hide Turns, Flatten, TurnsFit, Migrated;
    }
  }

  lemma FlattenLast(digits: Digits, rows: seq<MessageRow>, n: nat)
    requires 0 < n <= |rows| && Accepted(rows) && Grouped(rows)
    requires TurnsFit(digits, rows, n - 1, Turns(digits, rows[..n - 1]))
    requires rows[n - 1].position == 2 * (rows[n - 1].position / 2) + (if rows[n - 1].role == User then 0 else 1)
    ensures Flatten(Turns(digits, rows[..n])) == Flatten(Turns(digits, rows[..n - 1])) + [Migrated(digits, rows[n - 1])]
  {
    hide Accepted, Grouped, SpeechOf, NoticesOf, Flatten, Flat, Migrated;
    var before := Turns(digits, rows[..n - 1]);
    var m := rows[n - 1];
    var after := TurnsFitNext(digits, rows, n - 1, before);
    assert after == Turns(digits, rows[..n]);
    if m.role == User {
      FlattenOpened(digits, before, m);
    } else {
      Neighbours(rows, n - 1);
      LastTurnIsOpen(digits, rows[..n - 1]);
      FlattenAnswered(digits, before, m);
    }
  }

  lemma LastTurnIsOpen(digits: Digits, rows: seq<MessageRow>)
    requires rows != [] && rows[|rows| - 1].role == User
    ensures Turns(digits, rows) != []
    ensures Turns(digits, rows)[|Turns(digits, rows)| - 1].assistantSpeech == None
  {
  }

  lemma {:induction false} FlattenOpened(digits: Digits, before: seq<Turn>, m: MessageRow)
    requires m.role == User && m.position == 2 * (m.position / 2)
    ensures Flatten(before + [Turn(KeyOf(m), m.content, None, [])]) == Flatten(before) + [Migrated(digits, m)]
  {
    assert (before + [Turn(KeyOf(m), m.content, None, [])])[..|before|] == before;
  }

  lemma {:induction false} FlattenAnswered(digits: Digits, before: seq<Turn>, m: MessageRow)
    requires m.role == Assistant && m.position == 2 * (m.position / 2) + 1
    requires before != [] && before[|before| - 1].key == KeyOf(m) && before[|before| - 1].assistantSpeech == None
    ensures var last := |before| - 1;
            Flatten(before[..last] + [Answered(digits, before[last], m.content)])
            == Flatten(before) + [Migrated(digits, m)]
  {
    hide SpeechOf, NoticesOf;
    var last := |before| - 1;
    var turn := Answered(digits, before[last], m.content);
    assert (before[..last] + [turn])[..last] == before[..last];
    assert Flat(turn) == Flat(before[last]) + [Migrated(digits, m)];
    assert Flatten(before[..last]) + (Flat(before[last]) + [Migrated(digits, m)])
        == Flatten(before[..last]) + Flat(before[last]) + [Migrated(digits, m)];
  }

  /** And the notice taken out is kept with its turn: putting it back before the speech gives the message as it
      was, but for the white space between the two. */
  lemma NoticesAreKept(digits: Digits, content: string)
    ensures var speech, notices := SpeechOf(digits, content), NoticesOf(digits, content);
            if notices == [] then content == speech
            else |notices| == 1 && Conversation.SplitsInto(content, notices[0], speech)
  {
    Conversation.SplitKeepsTheText(content, digits);
  }

  // ---------------------------------------------------------------------
  // Turn identifiers
  // ---------------------------------------------------------------------

  lemma LastDash(a: string, d: string, b: string, e: string)
    requires a + "-" + d == b + "-" + e && '-' !in d && '-' !in e
    ensures a == b && d == e
  {
    var text := a + "-" + d;
    assert text[|a|] == '-' && text[|b|] == '-';
    assert forall k :: 0 <= k < |d| ==> text[|a| + 1 + k] == d[k];
    assert forall k :: 0 <= k < |e| ==> text[|b| + 1 + k] == e[k];
    assert |a| == |b|;
    assert text[..|a|] == a && text[..|b|] == b;
    assert text[|a| + 1..] == d && text[|b| + 1..] == e;
  }

  lemma FirstDash(c: string, s: string, d: string, t: string)
    requires c + "-" + s == d + "-" + t && '-' !in c && '-' !in d
    ensures c == d && s == t
  {
    var text := c + "-" + s;
    assert text[|c|] == '-' && text[|d|] == '-';
    assert forall k :: 0 <= k < |c| ==> text[k] == c[k];
    assert forall k :: 0 <= k < |d| ==> text[k] == d[k];
    assert |c| == |d|;
    assert text[..|c|] == c && text[..|d|] == d;
    assert text[|c| + 1..] == s && text[|d| + 1..] == t;
  }

  /** Two generated turn identifiers are the same exactly when the positions are and channel and session,
      joined by the dash, are. */
  lemma TurnIdsCollideExactly(a: Key, b: Key)
    requires a.2 >= 0 && b.2 >= 0
    ensures TurnId(a) == TurnId(b) <==> a.0 + "-" + a.1 == b.0 + "-" + b.1 && a.2 == b.2
  {
    hide Decimal;
    var p, q := "legacy-" + a.0 + "-" + a.1, "legacy-" + b.0 + "-" + b.1;
    assert p == "legacy-" + (a.0 + "-" + a.1) && q == "legacy-" + (b.0 + "-" + b.1);
    if TurnId(a) == TurnId(b) {
      LastDash(p, Decimal(a.2), q, Decimal(b.2));
      DecimalIsInjective(a.2, b.2);
      assert p[|"legacy-"|..] == a.0 + "-" + a.1 && q[|"legacy-"|..] == b.0 + "-" + b.1;
    }
  }

  /** For channel names without a dash the identifiers are distinct. */
  lemma TurnIdsAreDistinct(a: Key, b: Key)
    requires a.2 >= 0 && b.2 >= 0 && '-' !in a.0 && '-' !in b.0
    ensures TurnId(a) == TurnId(b) <==> a == b
  {
    hide TurnId;
    TurnIdsCollideExactly(a, b);
    if TurnId(a) == TurnId(b) { FirstDash(a.0, a.1, b.0, b.1); }
  }

  /** What the identifiers of a session's turns begin with, after `legacy-`. */
  function Label(session: Session): string { session.0 + "-" + session.1 }

  /** Two sessions with messages run together once channel and session are joined. */
  ghost predicate SessionsCollide(rows: seq<MessageRow>) {
    exists i, j :: 0 <= i < j < |rows| && SessionOf(rows[i]) != SessionOf(rows[j])
                   && Label(SessionOf(rows[i])) == Label(SessionOf(rows[j]))
  }

  ghost predicate DistinctIds(turns: seq<Turn>)
    requires forall a :: 0 <= a < |turns| ==> turns[a].key.2 >= 0
  {
    forall a, b :: 0 <= a < b < |turns| ==> TurnId(turns[a].key) != TurnId(turns[b].key)
  }

  lemma {:induction false} FirstOfSession(rows: seq<MessageRow>, i: nat) returns (k: nat)
    requires Accepted(rows) && i < |rows|
    ensures k <= i && SessionOf(rows[k]) == SessionOf(rows[i]) && rows[k].position == 0
    decreases i
  {
    assert InPlace(rows, i);
    if rows[i].position == 0 {
      k := i;
    } else {
      var j := CountedRowExists(rows[..i], SessionOf(rows[i]));
      assert rows[..i][j] == rows[j];
      k := FirstOfSession(rows, j);
    }
  }

  lemma {:induction false} RowsHaveTurns(digits: Digits, rows: seq<MessageRow>, n: nat, i: nat) returns (a: nat)
    requires Accepted(rows) && Grouped(rows) && i < n <= |rows|
    ensures a < |Turns(digits, rows[..n])| && Turns(digits, rows[..n])[a].key == KeyOf(rows[i])
    decreases n
  {
    hide Accepted, Grouped, Turns;
    FitAll(digits, rows, n - 1);
    var before := Turns(digits, rows[..n - 1]);
    var turns := TurnsFitNext(digits, rows, n - 1, before);
    if i == n - 1 { a := |turns| - 1; } else { a := RowsHaveTurns(digits, rows, n - 1, i); }
  }

  lemma TurnsHaveRows(digits: Digits, rows: seq<MessageRow>, turns: seq<Turn>, a: nat) returns (i: nat)
    requires Accepted(rows) && TurnsFit(digits, rows, |rows|, turns) && a < |turns|
    ensures i < |rows| && KeyOf(rows[i]) == turns[a].key && turns[a].key.2 >= 0
  {
    hide Turns;
    i :| 0 <= i < |rows| && KeyOf(rows[i]) == turns[a].key;
    assert InPlace(rows, i);
  }

  lemma FirstTurn(digits: Digits, rows: seq<MessageRow>, i: nat) returns (a: nat)
    requires Accepted(rows) && Grouped(rows) && i < |rows|
    ensures a < |Turns(digits, rows)| && Turns(digits, rows)[a].key == (rows[i].channel, rows[i].sessionId, 0)
  {
    assert rows[..|rows|] == rows;
    var k := FirstOfSession(rows, i);
    a := RowsHaveTurns(digits, rows, |rows|, k);
  }

  /** The generated identifiers are distinct exactly when no two sessions run together: when two do, their
      first turns already have one identifier. */
  lemma DistinctIdsExactly(digits: Digits, rows: seq<MessageRow>, turns: seq<Turn>)
    requires Accepted(rows) && Grouped(rows) && TurnsFit(digits, rows, |rows|, turns)
    ensures forall a :: 0 <= a < |turns| ==> turns[a].key.2 >= 0
    ensures DistinctIds(turns) <==> !SessionsCollide(rows)
  {
    hide Accepted, Grouped, Turns, TurnId;
    forall a | 0 <= a < |turns| ensures turns[a].key.2 >= 0 { var i := TurnsHaveRows(digits, rows, turns, a); }
    assert rows[..|rows|] == rows;
    forall a, b | 0 <= a < b < |turns| && TurnId(turns[a].key) == TurnId(turns[b].key) ensures SessionsCollide(rows) {
      var i := TurnsHaveRows(digits, rows, turns, a);
      var j := TurnsHaveRows(digits, rows, turns, b);
      TurnIdsCollideExactly(turns[a].key, turns[b].key);
      assert Label(SessionOf(rows[i])) == Label(SessionOf(rows[j]));
    }
    if SessionsCollide(rows) {
      var i, j :| 0 <= i < j < |rows| && SessionOf(rows[i]) != SessionOf(rows[j])
                  && Label(SessionOf(rows[i])) == Label(SessionOf(rows[j]));
      var a := FirstTurn(digits, rows, i);
      var b := FirstTurn(digits, rows, j);
      TurnIdsCollideExactly(turns[a].key, turns[b].key);
    }
  }

  /** `ChannelName` (src/reckoning/interfaces.py:29) */
  predicate ChannelName(channel: string) { channel == "terminal" || channel == "web" || channel == "telegram" }

  /** Sessions of the application's own channels never run together: their names hold no dash. */
  lemma OwnChannelsNeverCollide(rows: seq<MessageRow>)
    requires forall m :: m in rows ==> ChannelName(m.channel)
    ensures !SessionsCollide(rows)
  {
    forall i, j | 0 <= i < j < |rows| && Label(SessionOf(rows[i])) == Label(SessionOf(rows[j]))
      ensures SessionOf(rows[i]) == SessionOf(rows[j])
    {
      assert rows[i] in rows && rows[j] in rows;
      FirstDash(rows[i].channel, rows[i].sessionId, rows[j].channel, rows[j].sessionId);
    }
  }

  /** An input that collides: two sessions, each with one message, under channel names with a dash in one of
      them.  The tables take any text for a channel, the application writes none of these names. */
  lemma DashedChannelsCollide()
    ensures var rows := [MessageRow("a", "b-c", 0, User, ""), MessageRow("a-b", "c", 0, User, "")];
            Accepted(rows) && Grouped(rows) && SessionsCollide(rows) && !ChannelName("a-b")
  {
    var rows := [MessageRow("a", "b-c", 0, User, ""), MessageRow("a-b", "c", 0, User, "")];
    assert Label(SessionOf(rows[0])) == Label(SessionOf(rows[1]));
    assert rows[..0] == [] && rows[..1] == [rows[0]];
    assert InPlace(rows, 0) && InPlace(rows, 1);
  }

  // ---------------------------------------------------------------------
  // Storing the turns and rewriting the messages
  // ---------------------------------------------------------------------

  /** `UPDATE ... SET content WHERE channel, session_id, position and role = 'assistant'` */
  function SetContent(rows: seq<MessageRow>, key: Key, content: string): (r: seq<MessageRow>)
    ensures |r| == |rows|
    ensures forall i :: 0 <= i < |rows| ==>
              r[i] == if SessionOf(rows[i]) == (key.0, key.1) && rows[i].position == 2 * key.2 + 1
                         && rows[i].role == Assistant
                      then rows[i].(content := content) else rows[i]
  {
    if rows == [] then []
    else
      var last := rows[|rows| - 1];
      SetContent(rows[..|rows| - 1], key, content)
      + [if SessionOf(last) == (key.0, key.1) && last.position == 2 * key.2 + 1 && last.role == Assistant
         then last.(content := content) else last]
  }

  /** The assistant rows of the first `n` turns carry their speech, the other rows are as they were. */
  ghost predicate Rewritten(rows: seq<MessageRow>, turns: seq<Turn>, n: nat, now: seq<MessageRow>)
    requires n <= |turns|
  {
    && |now| == |rows|
    && forall i :: 0 <= i < |rows| ==>
         && now[i] == rows[i].(content := now[i].content)
         && (rows[i].role == User ==> now[i] == rows[i])
         && (forall a :: 0 <= a < |turns| && rows[i].role == Assistant && KeyOf(rows[i]) == turns[a].key ==>
               if a < n && turns[a].assistantSpeech.Some?
               then now[i] == rows[i].(content := turns[a].assistantSpeech.value) else now[i] == rows[i])
  }

  lemma RewrittenOne(rows: seq<MessageRow>, turns: seq<Turn>, n: nat, now: seq<MessageRow>)
    requires Accepted(rows) && n < |turns| && Rewritten(rows, turns, n, now)
    requires forall a, b :: 0 <= a < b < |turns| ==> turns[a].key != turns[b].key
    ensures turns[n].assistantSpeech.Some? ==>
              Rewritten(rows, turns, n + 1, SetContent(now, turns[n].key, turns[n].assistantSpeech.value))
    ensures turns[n].assistantSpeech == None ==> Rewritten(rows, turns, n + 1, now)
  {
    hide Accepted;
    forall i | 0 <= i < |rows|
      ensures rows[i].position == 2 * (rows[i].position / 2) + (if rows[i].role == User then 0 else 1)
    {
      EvenAndOdd(rows, i);
    }
  }

  /** A row of `interface_turns`; its identifier is the primary key. */
  datatype TurnRow = TurnRow(id: string, turn: Turn, state: TurnState)

  function TurnRowOf(t: Turn): TurnRow
    requires t.key.2 >= 0
  {
    TurnRow(TurnId(t.key), t, StateOf(t))
  }

  /** The rows of all turns, in order. */
  ghost predicate Stored(turns: seq<Turn>, stored: seq<TurnRow>)
    requires forall a :: 0 <= a < |turns| ==> turns[a].key.2 >= 0
  {
    |stored| == |turns| && forall a :: 0 <= a < |turns| ==> stored[a] == TurnRowOf(turns[a])
  }

  /** The loop over the turns: each is inserted, and its speech written over its assistant message.  A used
      identifier breaks the primary key, and the exception rolls everything back. */
  method InsertTurns(rows: seq<MessageRow>, turns: seq<Turn>)
    returns (ok: bool, stored: seq<TurnRow>, now: seq<MessageRow>)
    requires Accepted(rows) && forall a, b :: 0 <= a < b < |turns| ==> turns[a].key != turns[b].key
    requires forall a :: 0 <= a < |turns| ==> turns[a].key.2 >= 0
    ensures ok <==> DistinctIds(turns)
    ensures ok ==> Stored(turns, stored) && Rewritten(rows, turns, |turns|, now)
    ensures !ok ==> now == rows
  {
    hide SetContent, Rewritten, Accepted, TurnId;
    var ids: set<string> := {};
    stored, now := [], rows;
    assert Rewritten(rows, turns, 0, rows) by { NothingRewritten(rows, turns); }
    for n := 0 to |turns|
      invariant Rewritten(rows, turns, n, now) && Stored(turns[..n], stored) && DistinctIds(turns[..n])
      invariant forall id :: id in ids <==> exists a :: 0 <= a < n && TurnId(turns[a].key) == id
    {
      var id := TurnId(turns[n].key);
      if id in ids {
        assert exists a :: 0 <= a < n && TurnId(turns[a].key) == TurnId(turns[n].key);
        return false, [], rows;
      }
      RewrittenOne(rows, turns, n, now);
      ids, stored := ids + {id}, stored + [TurnRow(id, turns[n], StateOf(turns[n]))];
      if turns[n].assistantSpeech.Some? {
        now := SetContent(now, turns[n].key, turns[n].assistantSpeech.value);
      }
      assert turns[..n + 1] == turns[..n] + [turns[n]];
    }
    assert turns[..|turns|] == turns;
    ok := true;
  }

  lemma NothingRewritten(rows: seq<MessageRow>, turns: seq<Turn>)
    ensures Rewritten(rows, turns, 0, rows)
  {
  }

  /** Every assistant row finds its speech in the turn of its key. */
  lemma {:induction false} AnswersInTurns(digits: Digits, rows: seq<MessageRow>, n: nat, i: nat)
    requires Accepted(rows) && Grouped(rows) && i < n <= |rows| && rows[i].role == Assistant
    ensures exists a :: 0 <= a < |Turns(digits, rows[..n])| && Turns(digits, rows[..n])[a].key == KeyOf(rows[i])
                        && Turns(digits, rows[..n])[a].assistantSpeech == Some(SpeechOf(digits, rows[i].content))
                        && Turns(digits, rows[..n])[a].notices == NoticesOf(digits, rows[i].content)
    decreases n
  {
    hide Accepted, Grouped, SpeechOf, NoticesOf, Turns;
    FitAll(digits, rows, n - 1);
    var before := Turns(digits, rows[..n - 1]);
    var turns := TurnsFitNext(digits, rows, n - 1, before);
    if i == n - 1 {
      assert turns[|turns| - 1].key == KeyOf(rows[i]);
    } else {
      AnswersInTurns(digits, rows, n - 1, i);
      var a :| 0 <= a < |before| && before[a].key == KeyOf(rows[i])
               && before[a].assistantSpeech == Some(SpeechOf(digits, rows[i].content))
               && before[a].notices == NoticesOf(digits, rows[i].content);
      if rows[n - 1].role == Assistant && a == |before| - 1 {
        Neighbours(rows, n - 1);
        LastTurnIsOpen(digits, rows[..n - 1]);
      }
      assert turns[a] == before[a];
    }
  }

  /** No beginning of the text is a notice of an older release. */
  ghost predicate WithoutNotice(digits: Digits, content: string) {
    forall k :: 0 <= k <= |content| ==> !Conversation.IsNotice(content[..k], digits)
  }

  /** What becomes of an answer: without a notice it is kept as it is; a notice is kept apart from the speech, and
      with it the white space between the two goes. */
  ghost predicate AnswerStored(digits: Digits, content: string, row: TurnRow, now: string) {
    && row.turn.assistantSpeech == Some(now) && (row.state == Completed <==> now != "")
    && (WithoutNotice(digits, content) ==> now == content && row.turn.notices == [])
    && forall k :: 0 <= k <= |content| && Conversation.IsNotice(content[..k], digits) ==>
         row.turn.notices == [content[..k]] && Conversation.SplitsInto(content, content[..k], now)
  }

  ghost predicate AnswersStored(digits: Digits, rows: seq<MessageRow>, stored: seq<TurnRow>, now: seq<MessageRow>)
    requires |now| == |rows|
  {
    forall i :: 0 <= i < |rows| && rows[i].role == Assistant ==>
      exists a :: 0 <= a < |stored| && stored[a].turn.key == KeyOf(rows[i])
                  && AnswerStored(digits, rows[i].content, stored[a], now[i].content)
  }

  lemma EachAnswerStored(digits: Digits, rows: seq<MessageRow>, stored: seq<TurnRow>, now: seq<MessageRow>)
    requires Accepted(rows) && Grouped(rows) && Conversation.NoLetters(digits)
    requires forall a :: 0 <= a < |stored| ==> stored[a].turn.key.2 >= 0 && stored[a] == TurnRowOf(stored[a].turn)
    requires TurnsOf(stored) == Turns(digits, rows) && now == AllMigrated(digits, rows)
    ensures AnswersStored(digits, rows, stored, now)
  {
    hide Turns, Accepted, Grouped, TurnId, AnswerStored;
    assert rows[..|rows|] == rows;
    forall i | 0 <= i < |rows| && rows[i].role == Assistant
      ensures exists a :: 0 <= a < |stored| && stored[a].turn.key == KeyOf(rows[i])
                          && AnswerStored(digits, rows[i].content, stored[a], now[i].content)
    {
      AnswersInTurns(digits, rows, |rows|, i);
      var turns := TurnsOf(stored);
      var a :| 0 <= a < |turns| && turns[a].key == KeyOf(rows[i])
               && turns[a].assistantSpeech == Some(SpeechOf(digits, rows[i].content))
               && turns[a].notices == NoticesOf(digits, rows[i].content);
      OneAnswerStored(digits, rows[i].content, stored[a]);
    }
  }

  lemma OneAnswerStored(digits: Digits, content: string, row: TurnRow)
    requires Conversation.NoLetters(digits) && row.state == StateOf(row.turn)
    requires row.turn.assistantSpeech == Some(SpeechOf(digits, content))
    requires row.turn.notices == NoticesOf(digits, content)
    ensures AnswerStored(digits, content, row, SpeechOf(digits, content))
  {
    hide Conversation.IsNotice, Conversation.SplitsInto;
    Conversation.SplitExactly(content, digits);
    hide Conversation.SplitLegacyNoticePrefix;
  }

  datatype MigrationError = MalformedOrder | DuplicateTurnId

  /** `_migrate_v1_to_v2`: malformed histories are refused, and so are sessions that run together; either way
      nothing changes.  Otherwise the stored turns flatten to exactly the rewritten messages, which are the old
      ones without the notices, and no two turns share a place or an identifier. */
  method MigrateV1ToV2(digits: Digits, rows: seq<MessageRow>)
    returns (r: Result<seq<TurnRow>, MigrationError>, now: seq<MessageRow>)
    requires Grouped(rows)
    ensures r.Ok? <==> SessionsAlternate(rows) && !SessionsCollide(rows)
    ensures r == Err(MalformedOrder) <==> !SessionsAlternate(rows)
    ensures r.Err? ==> now == rows
    ensures r.Ok? ==>
              && now == AllMigrated(digits, rows) && Flatten(TurnsOf(r.value)) == now
              && (forall a :: 0 <= a < |r.value| ==>
                   r.value[a].turn.key.2 >= 0 && r.value[a] == TurnRowOf(r.value[a].turn))
              && (forall a, b :: 0 <= a < b < |r.value| ==>
                   r.value[a].id != r.value[b].id && r.value[a].turn.key != r.value[b].turn.key)
              && (forall a :: 0 <= a < |r.value| ==> RowTells(r.value[a]))
              && (Conversation.NoLetters(digits) ==> AnswersStored(digits, rows, r.value, now))
  {
    hide Turns, Accepted, Grouped, SpeechOf, NoticesOf, Flatten, Rewritten, SessionsAlternate, TurnsFit, TurnId;
    hide SessionsCollide, AnswersStored, RowTells;
    AcceptedExactly(rows);
    var ok := ValidateLegacyTurnOrder(rows);
    if !ok { return Err(MalformedOrder), rows; }
    var turns := BuildTurns(digits, rows);
    assert rows[..|rows|] == rows;
    DistinctTurns(digits, rows, turns);
    DistinctIdsExactly(digits, rows, turns);
    var stored;
    ok, stored, now := InsertTurns(rows, turns);
    if !ok { return Err(DuplicateTurnId), rows; }
    FlatteningGivesBack(digits, rows, |rows|);
    RewrittenIsMigrated(digits, rows, turns, now);
    StoredTurns(turns, stored);
    StoredRowsTell(stored);
    if Conversation.NoLetters(digits) { EachAnswerStored(digits, rows, stored, now); }
    r := Ok(stored);
  }

  /** The identifier is made from the place of the turn, and the turn is completed when it has speech. */
  predicate RowTells(row: TurnRow) {
    && row.turn.key.2 >= 0
    && row.id == "legacy-" + row.turn.key.0 + "-" + row.turn.key.1 + "-" + Decimal(row.turn.key.2)
    && (row.state == Completed <==> row.turn.assistantSpeech.Some? && row.turn.assistantSpeech.value != "")
  }

  lemma StoredRowsTell(stored: seq<TurnRow>)
    requires forall a :: 0 <= a < |stored| ==> stored[a].turn.key.2 >= 0 && stored[a] == TurnRowOf(stored[a].turn)
    ensures forall a :: 0 <= a < |stored| ==> RowTells(stored[a])
  {
    hide Decimal;
  }

  function TurnsOf(stored: seq<TurnRow>): (r: seq<Turn>)
    ensures |r| == |stored| && forall a :: 0 <= a < |r| ==> r[a] == stored[a].turn
  {
    if stored == [] then [] else TurnsOf(stored[..|stored| - 1]) + [stored[|stored| - 1].turn]
  }

  lemma StoredTurns(turns: seq<Turn>, stored: seq<TurnRow>)
    requires forall a :: 0 <= a < |turns| ==> turns[a].key.2 >= 0
    requires Stored(turns, stored)
    ensures TurnsOf(stored) == turns
  {
    hide TurnId;
  }

  lemma DistinctTurns(digits: Digits, rows: seq<MessageRow>, turns: seq<Turn>)
    requires TurnsFit(digits, rows, |rows|, turns)
    ensures forall a, b :: 0 <= a < b < |turns| ==> turns[a].key != turns[b].key
  {
  }

  lemma RewrittenIsMigrated(digits: Digits, rows: seq<MessageRow>, turns: seq<Turn>, now: seq<MessageRow>)
    requires Accepted(rows) && Grouped(rows) && turns == Turns(digits, rows) && Rewritten(rows, turns, |turns|, now)
    ensures now == AllMigrated(digits, rows)
  {
    hide Accepted, Grouped, SpeechOf, NoticesOf, Turns;
    assert rows[..|rows|] == rows;
    forall i | 0 <= i < |rows| ensures now[i] == Migrated(digits, rows[i]) {
      if rows[i].role == Assistant { AnswersInTurns(digits, rows, |rows|, i); }
    }
  }

  // ---------------------------------------------------------------------
  // Completed turns
  // ---------------------------------------------------------------------

  /** The message is empty, or a known notice with nothing but white space behind it. */
  predicate SaysNothing(digits: Digits, content: string) {
    var end := Conversation.NoticeEnd(content, digits);
    if end == None then content == "" else Blank(content[end.value..])
  }

  lemma LeftStripsToNothing(text: string)
    ensures LeftStrip(text) == "" <==> Blank(text)
  {
  }

  lemma NothingLeftToSay(digits: Digits, content: string)
    ensures SpeechOf(digits, content) == "" <==> SaysNothing(digits, content)
  {
    hide Conversation.NoticeEnd;
    var end := Conversation.NoticeEnd(content, digits);
    if end.Some? { LeftStripsToNothing(content[end.value..]); }
  }

  /** A migrated turn counts as completed exactly when its answer says something. */
  lemma CompletedExactly(digits: Digits, t: Turn, content: string)
    ensures StateOf(Answered(digits, t, content)) == Completed <==> !SaysNothing(digits, content)
  {
    hide SpeechOf, SaysNothing;
    NothingLeftToSay(digits, content);
  }

  /** An answer that was nothing but a notice leaves its turn pending. */
  lemma NoProfileSaysNothing(digits: Digits)
    ensures SaysNothing(digits, Conversation.NO_PROFILE)
  {
    var text := Conversation.NO_PROFILE;
    assert Conversation.After(text, 0, Conversation.NO_PROFILE) == Some(|text|) by {
      assert text[0..|text|] == text;
    }
    assert text[|text|..] == "";
  }
}
