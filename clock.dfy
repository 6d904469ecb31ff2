/** The "m:ss" clock text that every view shows for a position or a duration
    in seconds. Two variants occur in the code: the plain one (pages/index.js,
    components/FullPlayer.js) and the guarded one that shows "0:00" for a falsy
    time (hooks/useAudioPlayer.js, pages/player.js, components/ProgressBar.js,
    and components/TrackList.js's formatDuration). */
module Clock {
  import opened Values
  import opened Text

  /** `Math.trunc`, which `%` on numbers uses: rounds toward zero. */
  function Trunc(x: real): int
  {
    if x >= 0.0 then x.Floor else -((-x).Floor)
  }

  /** JavaScript `x % d` on numbers: the remainder takes the sign of x. */
  function JsRem(x: real, d: real): real
    requires d > 0.0
  {
    x - d * Trunc(x / d) as real
  }

  /** `${Math.floor(t / 60)}:${Math.floor(t % 60).toString().padStart(2, '0')}`,
      with no guard: NaN prints as "NaN:NaN". */
  function FormatTime(t: Num): (s: string)
    ensures t.NaN? ==> s == "NaN:NaN"
    ensures t.Finite? && t.v >= 0.0 ==>
      |s| >= 4 && s[|s| - 3] == ':' && AllDigits(s[..|s| - 3]) && AllDigits(s[|s| - 2..])
  {
    match t
    case NaN => "NaN:NaN"
    case Finite(x) =>
      var minutes, seconds := IntToString((x / 60.0).Floor), JsRem(x, 60.0).Floor;
      if x >= 0.0 then
        SecondsFieldInRange(x);
        var field := PadStart(IntToString(seconds), 2, '0');
        assert |field| == 2 && AllDigits(field) by {
          assert |NatToString(seconds)| <= 2 by {
            if seconds >= 10 {
              assert NatToString(seconds) == NatToString(seconds / 10) + [DigitChar(seconds % 10)];
            }
          }
        }
        assert AllDigits(minutes) by {
          assert (x / 60.0).Floor >= 0;
        }
        var s := minutes + ":" + field;
        assert s[..|s| - 3] == minutes && s[|s| - 2..] == field;
        s
      else minutes + ":" + PadStart(IntToString(seconds), 2, '0')
  }

  /** The seconds field of a non-negative time is a whole number below 60. */
  lemma SecondsFieldInRange(x: real)
    requires x >= 0.0
    ensures 0 <= JsRem(x, 60.0).Floor < 60
  {
    var q := (x / 60.0).Floor;
    assert q >= 0 && Trunc(x / 60.0) == q;
    assert (q as real) <= x / 60.0 < (q + 1) as real;
    assert 0.0 <= JsRem(x, 60.0) < 60.0;
  }

  /** The guarded variant: `if (!time || isNaN(time)) return '0:00'`. */
  function FormatTimeOrZero(t: Num): (s: string)
    ensures t.NaN? ==> s == "0:00"
    ensures t.Finite? ==> s == FormatTime(t)
  {
    if Falsy(t) then
      assert t.Finite? ==> FormatTime(t) == "0:00" by {
        if t.Finite? {
          FormatTimeWholeSeconds(0.0);
          assert PadStart(IntToString(0), 2, '0') == "00";
        }
      }
      "0:00"
    else FormatTime(t)
  }

  /** The two digits of a seconds field below 60. */
  function TwoDigits(n: nat): string
    requires n < 100
  {
    [DigitChar(n / 10), DigitChar(n % 10)]
  }

  /** Whole minutes and whole seconds of the elapsed time, with the seconds
      zero-padded to two digits: for t >= 0 the text is the floor of t split
      into minutes and the seconds left over. */
  lemma FormatTimeWholeSeconds(x: real)
    requires x >= 0.0
    ensures FormatTime(Finite(x)) == NatToString(x.Floor / 60) + ":" + TwoDigits(x.Floor % 60)
  {
    var w := x.Floor;
    var q, r := w / 60, w % 60;
    assert w == 60 * q + r && 0 <= r < 60;
    assert (q as real) <= x / 60.0 < (q + 1) as real by {
      assert 60.0 * (q as real) <= w as real <= x < (w + 1) as real <= 60.0 * ((q + 1) as real);
    }
    assert (x / 60.0).Floor == q;
    assert Trunc(x / 60.0) == q;
    var rem := JsRem(x, 60.0);
    assert rem == x - 60.0 * (q as real);
    assert (r as real) <= rem < (r + 1) as real;
    assert rem.Floor == r;
    if r < 10 {
      assert PadStart(NatToString(r), 2, '0') == TwoDigits(r);
    } else {
      assert NatToString(r) == NatToString(r / 10) + [DigitChar(r % 10)];
      assert PadStart(NatToString(r), 2, '0') == TwoDigits(r);
    }
  }

  /** Reads "m:ss" back as a number of whole seconds. */
  function ParseClock(s: string): Option<nat>
  {
    if |s| >= 4 && s[|s| - 3] == ':' && AllDigits(s[..|s| - 3]) && AllDigits(s[|s| - 2..]) then
      Some(60 * DigitsValue(s[..|s| - 3]) + DigitsValue(s[|s| - 2..]))
    else None
  }

  /** For any non-negative time the clock text reads back as its whole
      seconds: the minutes and the seconds field together lose nothing but
      the fraction. */
  lemma FormatTimeRoundTrip(x: real)
    requires x >= 0.0
    ensures ParseClock(FormatTime(Finite(x))) == Some(x.Floor)
  {
    var w := x.Floor;
    assert w >= 0;
    var q, r := w / 60, w % 60;
    assert w == 60 * q + r && q >= 0 && 0 <= r < 60;
    FormatTimeWholeSeconds(x);
    ParseClockOfFields(q, r);
  }

  lemma ParseClockOfFields(m: nat, r: nat)
    requires r < 60
    ensures ParseClock(NatToString(m) + ":" + TwoDigits(r)) == Some(60 * m + r)
  {
    var ms := NatToString(m);
    var d := TwoDigits(r);
    var s := ms + ":" + d;
    assert s[..|s| - 3] == ms;
    assert s[|s| - 2..] == d;
    DigitsValueOfNatToString(m);
    var hi := [DigitChar(r / 10)];
    assert d[..1] == hi && hi[..0] == [];
    assert DigitsValue(hi) == r / 10;
    assert DigitsValue(d) == 10 * (r / 10) + r % 10;
  }

  /** The guarded and the plain variant differ only on NaN. */
  lemma FormatVariantsAgreeOnNumbers(x: real)
    ensures FormatTimeOrZero(Finite(x)) == FormatTime(Finite(x))
    ensures FormatTimeOrZero(NaN) != FormatTime(NaN)
  {
  }
}
