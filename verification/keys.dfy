/**
 * The key-sequence decoder of kew's control loop (`processInput`), as a pure
 * specification: one already-read byte sequence and the decoder's state (chord
 * flag, digit accumulator, time of the last accepted navigation key) give an
 * event, an edit of the search text and the new decoder state. The class in
 * decoder.dfy implements it over the source's fixed-size digit buffer.
 */
module Keys {
  import opened Common

  /** `maxDigitsPressedCount`: the digit accumulator holds at most nine digits. */
  const MaxDigitsPressed: nat := 9
  /** `NUM_KEY_MAPPINGS`: size of the key-binding table. */
  const NumKeyMappings: nat := 48
  /** `COOLDOWN_MS`: minimum gap between two accepted next/previous keys. */
  const NextPrevCooldownMs: int := 500
  /** `COOLDOWN2_MS`: minimum gap before an accepted remove/seek key. */
  const SeekRemoveCooldownMs: int := 100

  const Esc: byte := 27
  const Backspace: byte := 8
  const Delete: byte := 127
  const Tab: byte := 9
  const Newline: byte := 10
  const CarriageReturn: byte := 13
  const Space: byte := 32
  const LowerG: byte := 103
  /** Bytes from here on start a multi-byte UTF-8 character. */
  const Utf8LeadMin: byte := 192
  /** What gotoBeginningOfPlaylist stores in the digit buffer: the byte 1, not the digit '1'. */
  const BeginningMarker: byte := 1
  /** Z, X, C, V and B stay playlist shortcuts while a search is being typed. */
  const ReservedSearchLetters: set<byte> := {90, 88, 67, 86, 66}

  /** One entry of `keyMappings`: a configured byte sequence (possibly empty) and its event. */
  datatype KeyMapping = KeyMapping(keys: seq<byte>, eventType: EventType)

  /** First bytes of the three settings that confirm an accumulated number. */
  datatype ConfirmKeys = ConfirmKeys(switchNumberedSong: byte, hardSwitchNumberedSong: byte, hardEndOfPlaylist: byte)

  /** `struct Event`: the tag and the raw key text that produced it. */
  datatype Event = Event(kind: EventType, key: seq<byte>)

  /** What processInput does to the search text (removeFromSearchText / addToSearchText, then a new search). */
  datatype SearchEdit = NoEdit | DeleteChar | AppendText(text: seq<byte>)

  /** The decoder's globals: `gPressed`, the accumulated digits, `lastInputTime` in milliseconds. */
  datatype KeyState = KeyState(gPressed: bool, digits: seq<byte>, lastInputTime: int)

  datatype DecodeResult = DecodeResult(event: Event, edit: SearchEdit, state: KeyState)

  /** The accumulator holds at most nine bytes, each a digit, except a leading BeginningMarker. */
  predicate DigitsOk(d: seq<byte>)
  {
    && |d| <= MaxDigitsPressed
    && forall i :: 0 <= i < |d| ==> IsDigit(d[i]) || (i == 0 && d[i] == BeginningMarker)
  }

  predicate TableOk(table: seq<KeyMapping>)
  {
    && |table| == NumKeyMappings
    && forall i :: 0 <= i < |table| ==> IsCString(table[i].keys)
  }

  /** `None` stands for "no input available" and for "key released" (the read loop's early returns). */
  predicate InputOk(input: Option<seq<byte>>)
  {
    input.Some? ==> IsCString(input.value)
  }

  // ---------------------------------------------------------------- key table

  /** A non-empty mapping equals the sequence, or the sequence minus a leading ESC when it is longer than one byte. */
  predicate Matches(m: KeyMapping, s: seq<byte>)
  {
    m.keys != [] && ((FirstByte(s) == Esc && |s| > 1 && s[1..] == m.keys) || s == m.keys)
  }

  /** Index of the first mapping at or after `from` that matches `s`. */
  function FirstMatch(table: seq<KeyMapping>, s: seq<byte>, from: nat): (r: Option<nat>)
    requires from <= |table|
    decreases |table| - from
    ensures r.Some? ==> from <= r.value < |table| && Matches(table[r.value], s)
    ensures r.Some? ==> forall j :: from <= j < r.value ==> !Matches(table[j], s)
    ensures r.None? ==> forall j :: from <= j < |table| ==> !Matches(table[j], s)
  {
    if from == |table| then None
    else if Matches(table[from], s) then Some(from)
    else FirstMatch(table, s, from + 1)
  }

  /** The event after the key-table loop: the first match wins, but a search edit survives unless the match is GOTOSONG. */
  function AfterKeyTable(kind: EventType, table: seq<KeyMapping>, s: seq<byte>): EventType
  {
    match FirstMatch(table, s, 0)
    case None => kind
    case Some(i) => if kind == SEARCH && table[i].eventType != GOTOSONG then kind else table[i].eventType
  }

  // ------------------------------------------------------------ search typing

  /** A key that is typed into the search text (any single byte but ESC and the line/tab controls, or a UTF-8 lead byte), except the reserved letters. */
  predicate AppendsToSearch(key: seq<byte>)
  {
    && ((|key| == 1 && key[0] != Esc && key[0] != Newline && key[0] != Tab && key[0] != CarriageReturn)
        || key == [Space]
        || FirstByte(key) >= Utf8LeadMin)
    && !(|key| == 1 && key[0] in ReservedSearchLetters)
  }

  function SearchEditFor(view: View, key: seq<byte>): SearchEdit
  {
    if view != SearchView then NoEdit
    else if key == [Delete] || key == [Backspace] then DeleteChar
    else if AppendsToSearch(key) then AppendText(key)
    else NoEdit
  }

  // -------------------------------------------------------------------- chord

  /** The "gg" chord: a `g` that produced no event sets the flag, or with the flag set yields GOTOBEGINNINGOFPLAYLIST and clears it. */
  function Chord(kind: EventType, gPressed: bool, key: seq<byte>): (EventType, bool)
  {
    if FirstByte(key) == LowerG && kind == NONE then
      if gPressed then (GOTOBEGINNINGOFPLAYLIST, false) else (NONE, true)
    else (kind, gPressed)
  }

  // ------------------------------------------------------------------- digits

  /** Appends one digit while fewer than nine are held; a full accumulator ignores it. */
  function Push(d: seq<byte>, b: byte): seq<byte>
  {
    if |d| < MaxDigitsPressed then d + [b] else d
  }

  predicate IsConfirm(b: byte, c: ConfirmKeys)
  {
    b == c.switchNumberedSong || b == c.hardSwitchNumberedSong || b == c.hardEndOfPlaylist
  }

  /** How the digit-scan loop ends: at the terminator, by clearing the accumulator, or by resolving an event. */
  datatype ScanResult = Exhausted(digits: seq<byte>) | Cleared | Resolved(kind: EventType, digits: seq<byte>)

  /** The digit-scan loop over the rest of a C string (the empty rest is the terminating NUL). */
  function Scan(rest: seq<byte>, d: seq<byte>, c: ConfirmKeys): ScanResult
    decreases |rest|
  {
    if rest == [] then Exhausted(d)
    else if IsDigit(rest[0]) then Scan(rest[1..], Push(d, rest[0]), c)
    else if !IsConfirm(rest[0], c) then Cleared
    else if rest[0] == c.hardEndOfPlaylist then Resolved(GOTOENDOFPLAYLIST, d)
    else Resolved(GOTOSONG, d)
  }

  /** A digit key appends its first byte; any other key goes through the scan loop. */
  function DigitStep(kind: EventType, d: seq<byte>, key: seq<byte>, c: ConfirmKeys): (EventType, seq<byte>)
  {
    if IsDigit(FirstByte(key)) then (kind, Push(d, key[0]))
    else match Scan(key, d, c)
      case Exhausted(d') => (kind, d')
      case Cleared => (kind, [])
      case Resolved(k, d') => (k, d')
  }

  // ---------------------------------------------------------------- cooldowns

  /** `isCooldownElapsed`, on integer milliseconds. */
  predicate CooldownElapsed(now: int, last: int, ms: int)
  {
    now - last >= ms
  }

  predicate IsNextPrev(k: EventType)
  {
    k == NEXT || k == PREV
  }

  predicate IsSeekRemove(k: EventType)
  {
    k == REMOVE || k == SEEKBACK || k == SEEKFORWARD
  }

  /** Suppresses a gated event whose cooldown (sampled at entry) has not elapsed, and stamps an accepted one. */
  function Gate(kind: EventType, elapsed: bool, elapsed2: bool, last: int, now: int): (EventType, int)
  {
    var (k1, t1) :=
      if IsNextPrev(kind) then (if elapsed then (kind, now) else (NONE, last)) else (kind, last);
    if IsSeekRemove(k1) then (if elapsed2 then (k1, now) else (NONE, t1)) else (k1, t1)
  }

  /** The events that leave the digit accumulator alone. */
  predicate KeepsDigits(k: EventType)
  {
    k == GOTOSONG || k == GOTOENDOFPLAYLIST || k == NONE
  }

  // ------------------------------------------------------------------- decode

  /** Search edit, key table, chord and digits, before the cooldown gates: (event, chord flag, digits). */
  function PreGate(ks: KeyState, key: seq<byte>, view: View, table: seq<KeyMapping>, c: ConfirmKeys): (EventType, bool, seq<byte>)
  {
    var k0 := if SearchEditFor(view, key) == NoEdit then NONE else SEARCH;
    var k1 := AfterKeyTable(k0, table, key);
    var (k2, g) := Chord(k1, ks.gPressed, key);
    var (k3, d) := DigitStep(k2, ks.digits, key, c);
    (k3, g, d)
  }

  /** One call of processInput. */
  function Decode(ks: KeyState, input: Option<seq<byte>>, view: View, table: seq<KeyMapping>, c: ConfirmKeys, now: int): DecodeResult
    requires InputOk(input) && TableOk(table)
  {
    match input
    case None => DecodeResult(Event(NONE, []), NoEdit, ks)
    case Some(key) =>
      var elapsed := CooldownElapsed(now, ks.lastInputTime, NextPrevCooldownMs);
      var elapsed2 := CooldownElapsed(now, ks.lastInputTime, SeekRemoveCooldownMs);
      var (k3, g, d) := PreGate(ks, key, view, table, c);
      var (k4, last) := Gate(k3, elapsed, elapsed2, ks.lastInputTime, now);
      var d' := if KeepsDigits(k4) then d else [];
      var g' := if FirstByte(key) == LowerG then g else false;
      DecodeResult(Event(k4, key), SearchEditFor(view, key), KeyState(g', d', last))
  }

  // ------------------------------------------------------------------- atoi

  /** Length of the run of digits at the start of `s`. */
  function DigitPrefix(s: seq<byte>): (n: nat)
    ensures n <= |s|
    ensures forall i :: 0 <= i < n ==> IsDigit(s[i])
    ensures n < |s| ==> !IsDigit(s[n])
  {
    if s == [] || !IsDigit(s[0]) then 0 else 1 + DigitPrefix(s[1..])
  }

  /** Decimal value of a string of digits, read left to right as atoi does. */
  function DecimalValue(s: seq<byte>): nat
    requires forall i :: 0 <= i < |s| ==> IsDigit(s[i])
  {
    if s == [] then 0
    else
      var last := s[|s| - 1];
      assert IsDigit(last);
      DecimalValue(s[..|s| - 1]) * 10 + (last - DigitZero) as nat
  }

  /** `atoi` on the accumulator's C string: the value of its leading digits (no sign or blank can occur there). */
  function Atoi(s: seq<byte>): nat
  {
    DecimalValue(s[..DigitPrefix(s)])
  }

  // ------------------------------------------------------------------ lemmas

  lemma {:induction false} DecimalValueBound(s: seq<byte>)
    requires forall i :: 0 <= i < |s| ==> IsDigit(s[i])
    ensures DecimalValue(s) < Pow10(|s|)
  {
    if s != [] {
      DecimalValueBound(s[..|s| - 1]);
    }
  }

  function Pow10(n: nat): (p: nat)
    ensures p >= 1
  {
    if n == 0 then 1 else 10 * Pow10(n - 1)
  }

  /** Nine digits at most: the number handed to skipToNumberedSong always fits a 32-bit int. */
  lemma AtoiFitsInt(d: seq<byte>)
    requires DigitsOk(d)
    ensures Atoi(d) < 1000000000
    ensures Atoi(d) <= 2147483647
  {
    var n := DigitPrefix(d);
    DecimalValueBound(d[..n]);
    Pow10Monotone(n, MaxDigitsPressed);
  }

  lemma {:induction false} Pow10Monotone(m: nat, n: nat)
    requires m <= n
    ensures Pow10(m) <= Pow10(n)
  {
    if m < n {
      Pow10Monotone(m, n - 1);
    }
  }

  /** gotoBeginningOfPlaylist's buffer parses as song number 0, whatever digits follow the marker. */
  lemma BeginningMarkerParsesAsZero(d: seq<byte>)
    requires d != [] && d[0] == BeginningMarker
    ensures Atoi(d) == 0
  {
  }

  /** A full buffer of typed digits parses as their decimal value. */
  lemma {:induction false} AtoiOfDigits(d: seq<byte>)
    requires forall i :: 0 <= i < |d| ==> IsDigit(d[i])
    ensures Atoi(d) == DecimalValue(d)
  {
    AllDigitsPrefix(d);
    assert d[..|d|] == d;
  }

  lemma {:induction false} AllDigitsPrefix(d: seq<byte>)
    requires forall i :: 0 <= i < |d| ==> IsDigit(d[i])
    ensures DigitPrefix(d) == |d|
  {
    if d != [] {
      AllDigitsPrefix(d[1..]);
    }
  }

  lemma PushKeepsDigitsOk(d: seq<byte>, b: byte)
    requires DigitsOk(d) && IsDigit(b)
    ensures DigitsOk(Push(d, b))
    ensures |d| < MaxDigitsPressed ==> Push(d, b) == d + [b]
    ensures |d| >= MaxDigitsPressed ==> Push(d, b) == d
  {
  }

  /** The scan loop never lets the accumulator exceed nine digits. */
  lemma {:induction false} ScanKeepsDigitsOk(rest: seq<byte>, d: seq<byte>, c: ConfirmKeys)
    requires DigitsOk(d)
    ensures Scan(rest, d, c).Exhausted? ==> DigitsOk(Scan(rest, d, c).digits)
    ensures Scan(rest, d, c).Resolved? ==> DigitsOk(Scan(rest, d, c).digits)
    decreases |rest|
  {
    if rest != [] && IsDigit(rest[0]) {
      PushKeepsDigitsOk(d, rest[0]);
      ScanKeepsDigitsOk(rest[1..], Push(d, rest[0]), c);
    }
  }

  /** processInput keeps the accumulator well formed: never more than nine bytes, all digits but a leading marker. */
  lemma DecodeKeepsDigitsOk(ks: KeyState, input: Option<seq<byte>>, view: View, table: seq<KeyMapping>, c: ConfirmKeys, now: int)
    requires InputOk(input) && TableOk(table) && DigitsOk(ks.digits)
    ensures DigitsOk(Decode(ks, input, view, table, c, now).state.digits)
  {
    if input.Some? {
      var key := input.value;
      if IsDigit(FirstByte(key)) {
        PushKeepsDigitsOk(ks.digits, key[0]);
      } else {
        ScanKeepsDigitsOk(key, ks.digits, c);
      }
    }
  }

  /** With a non-digit first byte the scan loop decides at index 0. */
  lemma ScanDecidesAtFirstByte(key: seq<byte>, d: seq<byte>, c: ConfirmKeys)
    requires key != [] && !IsDigit(key[0])
    ensures !IsConfirm(key[0], c) ==> Scan(key, d, c) == Cleared
    ensures key[0] == c.hardEndOfPlaylist ==> Scan(key, d, c) == Resolved(GOTOENDOFPLAYLIST, d)
    ensures IsConfirm(key[0], c) && key[0] != c.hardEndOfPlaylist ==> Scan(key, d, c) == Resolved(GOTOSONG, d)
  {
  }

  /** The digit accumulator's rules for one key. */
  lemma AccumulatorRules(ks: KeyState, key: seq<byte>, view: View, table: seq<KeyMapping>, c: ConfirmKeys, now: int)
    requires IsCString(key) && TableOk(table)
    ensures var r := Decode(ks, Some(key), view, table, c, now);
      && (IsDigit(FirstByte(key)) ==>
            r.state.digits == if KeepsDigits(r.event.kind) then Push(ks.digits, key[0]) else [])
      && (key != [] && !IsDigit(key[0]) && key[0] == c.hardEndOfPlaylist ==>
            r.event.kind == GOTOENDOFPLAYLIST && r.state.digits == ks.digits)
      && (key != [] && !IsDigit(key[0]) && IsConfirm(key[0], c) && key[0] != c.hardEndOfPlaylist ==>
            r.event.kind == GOTOSONG && r.state.digits == ks.digits)
      && (key != [] && !IsDigit(key[0]) && !IsConfirm(key[0], c) ==> r.state.digits == [])
      && (!KeepsDigits(r.event.kind) ==> r.state.digits == [])
      && (key == [] ==> r.state.digits == ks.digits)
  {
    if key != [] && !IsDigit(key[0]) {
      ScanDecidesAtFirstByte(key, ks.digits, c);
    }
  }

  /** The "gg" chord, for a `g` that no key mapping claims and that is not a confirm key. */
  lemma ChordRules(ks: KeyState, key: seq<byte>, view: View, table: seq<KeyMapping>, c: ConfirmKeys, now: int)
    requires IsCString(key) && TableOk(table)
    ensures var r := Decode(ks, Some(key), view, table, c, now);
      && (FirstByte(key) == LowerG
          && AfterKeyTable(if SearchEditFor(view, key) == NoEdit then NONE else SEARCH, table, key) == NONE ==>
            && r.state.gPressed == !ks.gPressed
            && (!IsConfirm(LowerG, c) ==>
                  r.event.kind == if ks.gPressed then GOTOBEGINNINGOFPLAYLIST else NONE))
      && (FirstByte(key) != LowerG ==> !r.state.gPressed)
  {
    if key != [] && !IsDigit(key[0]) {
      ScanDecidesAtFirstByte(key, ks.digits, c);
    }
  }

  /** Both cooldowns are sampled against the one shared timestamp; an accepted gated event restamps it, a suppressed one does not. */
  lemma CooldownRules(ks: KeyState, key: seq<byte>, view: View, table: seq<KeyMapping>, c: ConfirmKeys, now: int)
    requires IsCString(key) && TableOk(table)
    ensures var k := PreGate(ks, key, view, table, c).0;
      var r := Decode(ks, Some(key), view, table, c, now);
      && (IsNextPrev(k) ==>
            if now - ks.lastInputTime >= NextPrevCooldownMs
            then r.event.kind == k && r.state.lastInputTime == now
            else r.event.kind == NONE && r.state.lastInputTime == ks.lastInputTime)
      && (IsSeekRemove(k) ==>
            if now - ks.lastInputTime >= SeekRemoveCooldownMs
            then r.event.kind == k && r.state.lastInputTime == now
            else r.event.kind == NONE && r.state.lastInputTime == ks.lastInputTime)
      && (!IsNextPrev(k) && !IsSeekRemove(k) ==>
            r.event.kind == k && r.state.lastInputTime == ks.lastInputTime)
  {
  }

  /** A next/previous key less than 500 ms after an accepted one is suppressed and does not move the window. */
  lemma NextPrevWithinWindowSuppressed(ks: KeyState, key1: seq<byte>, key2: seq<byte>, view: View, table: seq<KeyMapping>, c: ConfirmKeys, t1: int, t2: int)
    requires IsCString(key1) && IsCString(key2) && TableOk(table)
    requires IsNextPrev(Decode(ks, Some(key1), view, table, c, t1).event.kind)
    requires var ks1 := Decode(ks, Some(key1), view, table, c, t1).state;
      IsNextPrev(PreGate(ks1, key2, view, table, c).0)
    requires t1 <= t2 < t1 + NextPrevCooldownMs
    ensures var ks1 := Decode(ks, Some(key1), view, table, c, t1).state;
      var r2 := Decode(ks1, Some(key2), view, table, c, t2);
      r2.event.kind == NONE && r2.state.lastInputTime == t1
  {
    var ks1 := Decode(ks, Some(key1), view, table, c, t1).state;
    CooldownRules(ks, key1, view, table, c, t1);
    CooldownRules(ks1, key2, view, table, c, t2);
  }

  /** No key mapping claims the one-byte key `b`. */
  predicate Unbound(table: seq<KeyMapping>, b: byte)
  {
    forall j :: 0 <= j < |table| ==> !Matches(table[j], [b])
  }

  /** An unbound digit key outside the search view appends to a non-full accumulator and yields no event. */
  lemma UnboundDigitKey(ks: KeyState, b: byte, view: View, table: seq<KeyMapping>, c: ConfirmKeys, t: int)
    requires TableOk(table) && view != SearchView && IsDigit(b) && Unbound(table, b)
    requires |ks.digits| < MaxDigitsPressed
    ensures var r := Decode(ks, Some([b]), view, table, c, t);
      r.event.kind == NONE && r.state.digits == ks.digits + [b]
  {
    assert FirstMatch(table, [b], 0).None?;
  }

  /** Typing 1, 2, 3 and then the go-to key yields GOTOSONG with "123" held for handleGoToSong. */
  lemma TypedNumberThenConfirm(ks: KeyState, view: View, table: seq<KeyMapping>, c: ConfirmKeys, t: int)
    requires TableOk(table) && view != SearchView && ks.digits == []
    requires c.switchNumberedSong != 0 && !IsDigit(c.switchNumberedSong) && c.switchNumberedSong != c.hardEndOfPlaylist
    requires Unbound(table, 49) && Unbound(table, 50) && Unbound(table, 51)
    ensures var r1 := Decode(ks, Some([49]), view, table, c, t);
      var r2 := Decode(r1.state, Some([50]), view, table, c, t);
      var r3 := Decode(r2.state, Some([51]), view, table, c, t);
      var r4 := Decode(r3.state, Some([c.switchNumberedSong]), view, table, c, t);
      r4.event.kind == GOTOSONG && r4.state.digits == [49, 50, 51] && Atoi(r4.state.digits) == 123
  {
    var r1 := Decode(ks, Some([49]), view, table, c, t);
    UnboundDigitKey(ks, 49, view, table, c, t);
    var r2 := Decode(r1.state, Some([50]), view, table, c, t);
    UnboundDigitKey(r1.state, 50, view, table, c, t);
    var r3 := Decode(r2.state, Some([51]), view, table, c, t);
    UnboundDigitKey(r2.state, 51, view, table, c, t);
    assert r3.state.digits == [49, 50, 51];
    AccumulatorRules(r3.state, [c.switchNumberedSong], view, table, c, t);
    var d: seq<byte> := [49, 50, 51];
    AtoiOfDigits(d);
    assert d[..2] == [49, 50] && d[..2][..1] == [49];
  }

  /** Typing 1, 2 and then an unbound non-digit, non-confirm key forgets the number and jumps nowhere. */
  lemma TypedNumberThenOtherKey(ks: KeyState, view: View, table: seq<KeyMapping>, c: ConfirmKeys, t: int, x: byte)
    requires TableOk(table) && view != SearchView && ks.digits == []
    requires x != 0 && !IsDigit(x) && !IsConfirm(x, c)
    requires Unbound(table, 49) && Unbound(table, 50) && Unbound(table, x)
    ensures var r1 := Decode(ks, Some([49]), view, table, c, t);
      var r2 := Decode(r1.state, Some([50]), view, table, c, t);
      var r3 := Decode(r2.state, Some([x]), view, table, c, t);
      r2.state.digits == [49, 50] && r3.event.kind == NONE && r3.state.digits == []
  {
    var r1 := Decode(ks, Some([49]), view, table, c, t);
    UnboundDigitKey(ks, 49, view, table, c, t);
    var r2 := Decode(r1.state, Some([50]), view, table, c, t);
    UnboundDigitKey(r1.state, 50, view, table, c, t);
    AccumulatorRules(r2.state, [x], view, table, c, t);
    assert FirstMatch(table, [x], 0).None?;
  }
}
