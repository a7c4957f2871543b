/**
 * The state of one `sc.util.apen` object and the handlers that change it:
 * sample input (`int`/`float`), `clear`, the attribute setters, and
 * `calculate`.
 */
module ApEnObject {

  import opened Wrappers
  import opened Settings
  import opened History
  import opened Entropy

  class ApEn {
    var seriesLength: int         // samples held, `series_length`
    var seriesMaxLength: int      // capacity, `series_max_length`
    var vectorSize: int           // `series_vector_size`, always 1
    var similarity: real          // the radius r
    var patternLength: int        // the pattern length m
    var calcOnInput: int          // recompute after every sample when 1
    var holdSizeWarning: int      // print the insufficient-data warning when 1
    var testValue: array<real>    // the sample buffer, oldest first

    /** The object invariant: the buffer is as long as the capacity and
        holds at most that many samples; the capacity leaves room for two
        patterns and one more sample pair; the radius is positive; the flags
        are 0 or 1. */
    ghost predicate Valid()
      reads this
    {
      testValue.Length == seriesMaxLength &&
      0 <= seriesLength <= seriesMaxLength &&
      2 <= patternLength && 2 * patternLength + 2 <= seriesMaxLength &&
      0.0 < similarity &&
      0 <= calcOnInput <= 1 && 0 <= holdSizeWarning <= 1 &&
      vectorSize == 1
    }

    /** The retained samples, oldest first. */
    ghost function Contents(): seq<real>
      reads this, testValue
      requires Valid()
    {
      testValue[..seriesLength]
    }

    /** `sc_util_apen_new`: the defaults. */
    constructor ()
      ensures Valid() && fresh(testValue)
      ensures Contents() == []
      ensures seriesMaxLength == 50 && patternLength == 3 && similarity == 1.0
      ensures calcOnInput == 1 && holdSizeWarning == 1 && vectorSize == 1
    {
      calcOnInput := 1;
      holdSizeWarning := 1;
      patternLength := 3;
      seriesLength := 0;
      vectorSize := 1;
      seriesMaxLength := 50;
      similarity := 1.0;
      testValue := new real[50];
    }

    /** The buffer update shared by the `int` and `float` handlers: below
        capacity the sample is written at index `seriesLength` and the
        length grows; at capacity the buffer moves one place left and the
        sample goes in the last slot. */
    method Append(v: real)
      requires Valid()
      modifies this`seriesLength, testValue
      ensures Valid()
      ensures seriesMaxLength == old(seriesMaxLength)
      ensures seriesLength == if old(seriesLength) < seriesMaxLength then old(seriesLength) + 1 else seriesMaxLength
      ensures Contents() == Push(old(Contents()), seriesMaxLength, v)
    {
      if seriesLength < seriesMaxLength {
        testValue[seriesLength] := v;
        seriesLength := seriesLength + 1;
      } else {
        var k := 0;
        while k < seriesMaxLength - 1
          invariant 0 <= k <= seriesMaxLength - 1
          invariant forall t :: 0 <= t < k ==> testValue[t] == old(testValue[t + 1])
          invariant forall t :: k <= t < seriesMaxLength ==> testValue[t] == old(testValue[t])
          modifies testValue
        {
          testValue[k] := testValue[k + 1];
          k := k + 1;
        }
        testValue[seriesMaxLength - 1] := v;
        assert testValue[..seriesLength] == old(testValue[..seriesLength])[1..] + [v];
      }
    }

    /** `sc_util_apen_float`: append the sample, then calculate when
        `calculate_on_input` is 1. The result is what that calculation
        produced, or None when it did not run. */
    method ReceiveFloat(f: real) returns (result: Option<Outcome>)
      requires Valid()
      modifies this`seriesLength, testValue
      ensures Valid()
      ensures seriesMaxLength == old(seriesMaxLength)
      ensures Contents() == Push(old(Contents()), seriesMaxLength, f)
      ensures result == if calcOnInput == 1 then Some(Estimate(Contents(), patternLength, similarity, holdSizeWarning == 1)) else None
    {
      Append(f);
      if calcOnInput == 1 {
        var o := Calculate();
        result := Some(o);
      } else {
        result := None;
      }
    }

    /** `sc_util_apen_int`: the same as the float handler on the converted sample. */
    method ReceiveInt(n: int) returns (result: Option<Outcome>)
      requires Valid()
      modifies this`seriesLength, testValue
      ensures Valid()
      ensures seriesMaxLength == old(seriesMaxLength)
      ensures Contents() == Push(old(Contents()), seriesMaxLength, n as real)
      ensures result == if calcOnInput == 1 then Some(Estimate(Contents(), patternLength, similarity, holdSizeWarning == 1)) else None
    {
      result := ReceiveFloat(n as real);
    }

    /** `sc_util_apen_clear`: forget every sample; capacity and
        configuration stay. */
    method Clear()
      requires Valid()
      modifies this`seriesLength
      ensures Valid()
      ensures seriesLength == 0 && Contents() == []
    {
      seriesLength := 0;
    }

    /** `sc_util_apen_set_series_length`: a new capacity is accepted when it
        exceeds 2m + 1 and differs from the current one. The buffer is then
        reallocated at the new size holding a copy of the old prefix, and the
        length is cut to the new capacity, so the oldest samples are the ones
        kept. A refused value changes nothing. */
    method SetSeriesLength(argv: seq<Atom>) returns (st: SetterStatus)
      requires Valid()
      modifies this
      ensures Valid()
      ensures patternLength == old(patternLength) && similarity == old(similarity)
      ensures calcOnInput == old(calcOnInput) && holdSizeWarning == old(holdSizeWarning)
      ensures vectorSize == old(vectorSize)
      ensures |argv| == 0 ==> st == NoArgument
      ensures |argv| > 0 && argv[0].Symbol? ==> st == BadType
      ensures |argv| > 0 && !argv[0].Symbol? ==>
                st == if CapacityAccepted(patternLength, old(seriesMaxLength), ReadLong(argv[0]).value)
                      then Applied else TooSmall(2 * patternLength + 1)
      ensures st == Applied ==>
                |argv| > 0 && ReadLong(argv[0]).Some? &&
                seriesMaxLength == ReadLong(argv[0]).value && fresh(testValue) &&
                seriesLength == Min(old(seriesLength), seriesMaxLength) &&
                Contents() == old(Contents())[..seriesLength]
      ensures st != Applied ==>
                seriesMaxLength == old(seriesMaxLength) && seriesLength == old(seriesLength) &&
                testValue == old(testValue) && Contents() == old(Contents())
    {
      if |argv| == 0 {
        return NoArgument;
      }
      var arg := ReadLong(argv[0]);
      if arg.None? {
        return BadType;
      }
      var c := arg.value;
      if !CapacityAccepted(patternLength, seriesMaxLength, c) {
        return TooSmall(2 * patternLength + 1);
      }
      var copy := new real[c];
      var n := if c > seriesMaxLength then seriesMaxLength else c;
      var k := 0;
      while k < n
        invariant 0 <= k <= n
        invariant forall t :: 0 <= t < k ==> copy[t] == testValue[t]
        modifies copy
      {
        copy[k] := testValue[k];
        k := k + 1;
      }
      ghost var kept := if seriesLength > c then c else seriesLength;
      assert copy[..kept] == testValue[..seriesLength][..kept];
      testValue := copy;
      if seriesLength > c {
        seriesLength := c;
      }
      seriesMaxLength := c;
      st := Applied;
    }

    /** `sc_util_apen_pattern_length`: accepted when 1 < p <= capacity/2 - 1,
        which keeps the invariant 2m + 2 <= capacity; otherwise the pattern
        length stays and the error names the violated bound. */
    method SetPatternLength(argv: seq<Atom>) returns (st: SetterStatus)
      requires Valid()
      modifies this`patternLength
      ensures Valid()
      ensures |argv| == 0 ==> st == NoArgument
      ensures |argv| > 0 && argv[0].Symbol? ==> st == BadType
      ensures |argv| > 0 && !argv[0].Symbol? ==>
                var p := ReadLong(argv[0]).value;
                st == if PatternLengthAccepted(seriesMaxLength, p) then Applied
                      else if p > seriesMaxLength / 2 - 1 then TooLarge(seriesMaxLength / 2 - 1)
                      else TooSmall(1)
      ensures st == Applied ==> |argv| > 0 && ReadLong(argv[0]) == Some(patternLength)
      ensures st != Applied ==> patternLength == old(patternLength)
    {
      if |argv| == 0 {
        return NoArgument;
      }
      var arg := ReadLong(argv[0]);
      if arg.None? {
        return BadType;
      }
      var p := arg.value;
      if p <= seriesMaxLength / 2 - 1 && p > 1 {
        patternLength := p;
        st := Applied;
      } else if p > seriesMaxLength / 2 - 1 {
        st := TooLarge(seriesMaxLength / 2 - 1);
      } else {
        st := TooSmall(1);
      }
    }

    /** `sc_util_apen_similarity`: the radius takes the argument read as a
        float when that is positive. */
    method SetSimilarity(argv: seq<Atom>) returns (st: SetterStatus)
      requires Valid()
      modifies this`similarity
      ensures Valid()
      ensures |argv| == 0 ==> st == NoArgument && similarity == old(similarity)
      ensures |argv| > 0 && ReadFloat(argv[0]) > 0.0 ==> st == Applied && similarity == ReadFloat(argv[0])
      ensures |argv| > 0 && ReadFloat(argv[0]) <= 0.0 ==> st == NotPositive && similarity == old(similarity)
    {
      if |argv| == 0 {
        return NoArgument;
      }
      var x := ReadFloat(argv[0]);
      if x > 0.0 {
        similarity := x;
        st := Applied;
      } else {
        st := NotPositive;
      }
    }

    /** `sc_util_apen_calc_on_input`: store the argument clamped into {0, 1}. */
    method SetCalcOnInput(argv: seq<Atom>) returns (st: SetterStatus)
      requires Valid()
      modifies this`calcOnInput
      ensures Valid()
      ensures |argv| == 0 ==> st == NoArgument && calcOnInput == old(calcOnInput)
      ensures |argv| > 0 && argv[0].Symbol? ==> st == BadType && calcOnInput == old(calcOnInput)
      ensures |argv| > 0 && !argv[0].Symbol? ==> st == Applied && calcOnInput == Clamp01(ReadLong(argv[0]).value)
    {
      if |argv| == 0 {
        return NoArgument;
      }
      var arg := ReadLong(argv[0]);
      if arg.None? {
        return BadType;
      }
      calcOnInput := Clamp01(arg.value);
      st := Applied;
    }

    /** `sc_util_apen_hold_size_warning`: store the argument clamped into {0, 1}. */
    method SetSizeWarning(argv: seq<Atom>) returns (st: SetterStatus)
      requires Valid()
      modifies this`holdSizeWarning
      ensures Valid()
      ensures |argv| == 0 ==> st == NoArgument && holdSizeWarning == old(holdSizeWarning)
      ensures |argv| > 0 && argv[0].Symbol? ==> st == BadType && holdSizeWarning == old(holdSizeWarning)
      ensures |argv| > 0 && !argv[0].Symbol? ==> st == Applied && holdSizeWarning == Clamp01(ReadLong(argv[0]).value)
    {
      if |argv| == 0 {
        return NoArgument;
      }
      var arg := ReadLong(argv[0]);
      if arg.None? {
        return BadType;
      }
      holdSizeWarning := Clamp01(arg.value);
      st := Applied;
    }

    /** `sc_util_apen_set_vector_size`: any positive argument sets the vector
        size to 1; anything else is refused. */
    method SetVectorSize(argv: seq<Atom>) returns (st: SetterStatus)
      requires Valid()
      modifies this`vectorSize
      ensures Valid() && vectorSize == 1
      ensures |argv| == 0 ==> st == NoArgument
      ensures |argv| > 0 && argv[0].Symbol? ==> st == BadType
      ensures |argv| > 0 && !argv[0].Symbol? ==>
                st == if ReadLong(argv[0]).value > 0 then Applied else NotPositive
    {
      if |argv| == 0 {
        return NoArgument;
      }
      var arg := ReadLong(argv[0]);
      if arg.None? {
        return BadType;
      }
      if arg.value > 0 {
        vectorSize := 1;
        st := Applied;
      } else {
        st := NotPositive;
      }
    }

    /** `sc_util_apen_calculate`: with fewer than 2m samples only the
        insufficient-data report; otherwise the two passes and the log
        argument. Nothing in the object changes. */
    method Calculate() returns (res: Outcome)
      requires Valid()
      ensures res == Estimate(Contents(), patternLength, similarity, holdSizeWarning == 1)
    {
      if seriesLength < patternLength * 2 {
        return Insufficient(patternLength * 2, seriesLength, holdSizeWarning == 1);
      }
      // both divisors, L - m + 1 and L - m, are positive
      assert seriesLength - patternLength >= 2;
      var avg0 := AverageRatio(testValue, seriesLength, patternLength, similarity);
      var avg1 := AverageRatio(testValue, seriesLength, patternLength + 1, similarity);
      res := Computed(avg0, avg1, LogArgument(avg0, avg1));
    }
  }

  /** Clearing twice leaves the object as clearing once does. */
  method ClearTwice(o: ApEn)
    requires o.Valid()
    modifies o
    ensures o.Valid() && o.Contents() == []
    ensures o.seriesMaxLength == old(o.seriesMaxLength) && o.testValue == old(o.testValue)
    ensures o.patternLength == old(o.patternLength) && o.similarity == old(o.similarity)
    ensures o.calcOnInput == old(o.calcOnInput) && o.holdSizeWarning == old(o.holdSizeWarning)
  {
    o.Clear();
    o.Clear();
  }
}
