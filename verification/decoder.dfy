/**
 * The decoder's state as kew keeps it: the chord flag `gPressed`, the digit
 * buffer `digitsPressed` (a fixed array of MAX_SEQ_LEN bytes) with its count
 * `digitsPressedCount`, and `lastInputTime`. ProcessInput is processInput after
 * the terminal read; it is proved to compute Keys.Decode.
 */
module Decoder {
  import opened Common
  import opened Keys

  class InputDecoder {
    var gPressed: bool
    /** `digitsPressed`; its length is MAX_SEQ_LEN, a header constant greater than nine. */
    var digits: array<byte>
    /** `digitsPressedCount` */
    var digitCount: nat
    /** `lastInputTime`, in milliseconds of the monotonic clock. */
    var lastInputTime: int

    /**
     * The buffer holds `digitCount` bytes followed by a NUL, except after
     * gotoBeginningOfPlaylist, which writes the marker and a NUL over the first
     * two bytes and leaves older digits behind them. Bytes from index nine on are
     * never written, so the C string always ends inside the buffer.
     */
    ghost predicate Valid()
      reads this, digits
    {
      && MaxDigitsPressed < digits.Length
      && digitCount <= MaxDigitsPressed
      && (forall i :: MaxDigitsPressed <= i < digits.Length ==> digits[i] == 0)
      && (forall i :: 0 <= i < digitCount ==> IsDigit(digits[i]) || (i == 0 && digits[i] == BeginningMarker))
      && ((digitCount > 0 && digits[0] == BeginningMarker) || forall i :: digitCount <= i < digits.Length ==> digits[i] == 0)
    }

    /** The accumulated digits. */
    ghost function Digits(): (d: seq<byte>)
      reads this, digits
      requires Valid()
      ensures DigitsOk(d)
    {
      digits[..digitCount]
    }

    ghost function Abstract(): KeyState
      reads this, digits
      requires Valid()
    {
      KeyState(gPressed, Digits(), lastInputTime)
    }

    /** The zero-initialised globals; initFirstPlay stamps `lastInputTime` before the first tick. */
    constructor (maxSeqLen: nat, start: int)
      requires MaxDigitsPressed < maxSeqLen
      ensures Valid() && fresh(digits) && digits.Length == maxSeqLen
      ensures Abstract() == KeyState(false, [], start)
    {
      gPressed := false;
      digits := new byte[maxSeqLen](_ => 0);
      digitCount := 0;
      lastInputTime := start;
    }

    /** `digitsPressed[digitsPressedCount++] = b` while fewer than nine digits are held. */
    method AppendDigit(b: byte)
      requires Valid() && IsDigit(b)
      modifies this`digitCount, digits
      ensures Valid()
      ensures Digits() == Push(old(Digits()), b)
    {
      if digitCount < MaxDigitsPressed {
        digits[digitCount] := b;
        digitCount := digitCount + 1;
      }
    }

    /** `memset(digitsPressed, '\0', ...)` and `digitsPressedCount = 0`. */
    method ClearDigits()
      requires Valid()
      modifies this`digitCount, digits
      ensures Valid() && Digits() == []
      ensures forall i :: 0 <= i < digits.Length ==> digits[i] == 0
    {
      forall i | 0 <= i < digits.Length {
        digits[i] := 0;
      }
      digitCount := 0;
    }

    /** The buffer writes of gotoBeginningOfPlaylist: the byte 1, a NUL, and a count of one. */
    method MarkBeginning()
      requires Valid()
      modifies this`digitCount, digits
      ensures Valid() && Digits() == [BeginningMarker]
    {
      digits[0] := BeginningMarker;
      digits[1] := 0;
      digitCount := 1;
    }

    /** `atoi(digitsPressed)`: reads the buffer's leading digits up to the first other byte. */
    method ParseDigits() returns (n: int)
      requires Valid()
      ensures n == Atoi(Digits())
    {
      var i := 0;
      n := 0;
      while i < digits.Length && IsDigit(digits[i])
        invariant 0 <= i <= digitCount
        invariant forall j :: 0 <= j < i ==> IsDigit(digits[j])
        invariant n == DecimalValue(digits[..i])
      {
        assert digits[..i + 1][..i] == digits[..i];
        n := n * 10 + (digits[i] - DigitZero) as int;
        i := i + 1;
      }
      assert Digits()[..i] == digits[..i];
    }

    /**
     * The digit-scan loop: appends leading digits, then at the first other byte
     * stops at the terminator, clears the accumulator, or resolves the go-to
     * event named by a confirm key.
     */
    method ScanDigits(s: seq<byte>, c: ConfirmKeys) returns (resolved: Option<EventType>)
      requires Valid() && IsCString(s)
      modifies this`digitCount, digits
      ensures Valid()
      ensures match Scan(s, old(Digits()), c)
        case Exhausted(d) => resolved.None? && Digits() == d
        case Cleared => resolved.None? && Digits() == []
        case Resolved(k, d) => resolved == Some(k) && Digits() == d
    {
      resolved := None;
      var i := 0;
      while i < |s| && IsDigit(s[i])
        invariant 0 <= i <= |s|
        invariant Valid()
        invariant Scan(s[i..], Digits(), c) == Scan(s, old(Digits()), c)
      {
        assert s[i..][1..] == s[i + 1..];
        AppendDigit(s[i]);
        i := i + 1;
      }
      if i < |s| {
        if !IsConfirm(s[i], c) {
          ClearDigits();
        } else if s[i] == c.hardEndOfPlaylist {
          resolved := Some(GOTOENDOFPLAYLIST);
        } else {
          resolved := Some(GOTOSONG);
        }
      }
    }

    /** The chord, digit and key-table steps of processInput, before the cooldown gates. */
    method ResolveKey(key: seq<byte>, view: View, table: seq<KeyMapping>, c: ConfirmKeys) returns (kind: EventType)
      requires Valid() && IsCString(key) && TableOk(table)
      modifies this`gPressed, this`digitCount, digits
      ensures Valid()
      ensures (kind, gPressed, Digits()) == PreGate(old(Abstract()), key, view, table, c)
    {
      ghost var ks := Abstract();
      kind := NONE;
      if SearchEditFor(view, key) != NoEdit {
        kind := SEARCH;
      }
      kind := AfterKeyTable(kind, table, key);
      ghost var k1 := kind;

      // gg
      if FirstByte(key) == LowerG && kind == NONE {
        if gPressed {
          kind := GOTOBEGINNINGOFPLAYLIST;
          gPressed := false;
        } else {
          gPressed := true;
        }
      }
      assert (kind, gPressed) == Chord(k1, ks.gPressed, key);
      ghost var k2 := kind;

      // numbers
      if IsDigit(FirstByte(key)) {
        AppendDigit(key[0]);
      } else {
        var resolved := ScanDigits(key, c);
        if resolved.Some? {
          kind := resolved.value;
        }
      }
      assert (kind, Digits()) == DigitStep(k2, ks.digits, key, c);
    }

    /** The two cooldown gates, on flags sampled at entry: suppress, or accept and restamp `lastInputTime`. */
    method ApplyCooldowns(kind: EventType, cooldownElapsed: bool, cooldown2Elapsed: bool, now: int) returns (gated: EventType)
      modifies this`lastInputTime
      ensures (gated, lastInputTime) == Gate(kind, cooldownElapsed, cooldown2Elapsed, old(lastInputTime), now)
    {
      gated := kind;
      if !cooldownElapsed && IsNextPrev(gated) {
        gated := NONE;
      } else if IsNextPrev(gated) {
        lastInputTime := now;
      }
      if !cooldown2Elapsed && IsSeekRemove(gated) {
        gated := NONE;
      } else if IsSeekRemove(gated) {
        lastInputTime := now;
      }
    }

    /**
     * processInput once a key sequence has been read (`None`: no input, or the
     * key was released). Returns the event and the edit it made to the search text.
     */
    method ProcessInput(input: Option<seq<byte>>, view: View, table: seq<KeyMapping>, c: ConfirmKeys, now: int)
      returns (event: Event, edit: SearchEdit)
      requires Valid() && InputOk(input) && TableOk(table)
      modifies this, digits
      ensures Valid() && digits == old(digits)
      ensures DecodeResult(event, edit, Abstract()) == Decode(old(Abstract()), input, view, table, c, now)
    {
      event, edit := Event(NONE, []), NoEdit;
      if input.None? {
        return;
      }
      var key := input.value;
      var cooldownElapsed := CooldownElapsed(now, lastInputTime, NextPrevCooldownMs);
      var cooldown2Elapsed := CooldownElapsed(now, lastInputTime, SeekRemoveCooldownMs);
      edit := SearchEditFor(view, key);
      var kind := ResolveKey(key, view, table, c);
      kind := ApplyCooldowns(kind, cooldownElapsed, cooldown2Elapsed, now);
      if !KeepsDigits(kind) {
        ClearDigits();
      }
      if FirstByte(key) != LowerG {
        gPressed := false;
      }
      event := Event(kind, key);
    }
  }
}
