/**
 Schedule fields (schedule/schedule_field.cpp). The 64-bit mask is the set of its one
 bits, so `mask |= 1 << v` adds v and `mask & other` is an intersection. A factory is
 specified by the values its field matches, never by the mask it builds.
 */
module ScheduleFields {

  datatype ScheduleField = ScheduleField(mask: set<int>, isAny: bool)

  const NOTHING := ScheduleField({}, false)

  predicate Matches(f: ScheduleField, v: int) {
    f.isAny || (0 <= v <= 63 && v in f.mask)
  }

  function Any(): (f: ScheduleField)
    ensures forall v :: Matches(f, v)
  {
    ScheduleField({}, true)
  }

  function Only(value: int): (f: ScheduleField)
    ensures forall v :: Matches(f, v) <==> v == value && 0 <= value <= 63
  {
    if value < 0 || value > 63 then NOTHING else ScheduleField({value}, false)
  }

  method Range(from: int, to: int) returns (f: ScheduleField)
    ensures !f.isAny
    ensures forall v :: Matches(f, v) <==> 0 <= from <= v <= to <= 63
  {
    f := NOTHING;
    if from < 0 || to < 0 || from > to || to > 63 {
      return;
    }
    var value := from;
    while value <= to
      invariant from <= value <= to + 1
      invariant !f.isAny
      invariant forall v :: v in f.mask <==> from <= v < value
    {
      f := f.(mask := f.mask + {value});
      value := value + 1;
    }
  }

  /** v is one of from, from + step, from + 2 * step, ... */
  ghost predicate OnStride(v: int, from: int, step: int) {
    exists n: nat :: v == from + n * step
  }

  lemma MultiplesApart(k: int, n: int, step: int)
    requires step > 0
    ensures k <= n ==> k * step <= n * step
    ensures k > n ==> k * step >= n * step + step
  {
    if k <= n {
      assert (n - k) * step >= 0;
    } else {
      assert (k - n - 1) * step >= 0;
    }
  }

  /** The stride has no value strictly between a member and the next one. */
  lemma NextOnStride(value: int, from: int, step: int)
    requires step > 0 && OnStride(value, from, step)
    ensures OnStride(value + step, from, step)
    ensures forall v :: OnStride(v, from, step) ==> from <= v && (v <= value || v >= value + step)
  {
    var n: nat :| value == from + n * step;
    assert value + step == from + (n + 1) * step;
    forall v | OnStride(v, from, step)
      ensures from <= v && (v <= value || v >= value + step)
    {
      var k: nat :| v == from + k * step;
      MultiplesApart(k, n, step);
    }
  }

  /** The loop shared by the every and rangeEvery factories. */
  method Stride(from: int, to: int, step: int) returns (f: ScheduleField)
    requires step > 0 && 0 <= from && to <= 63
    ensures !f.isAny
    ensures forall v :: Matches(f, v) <==> v <= to && OnStride(v, from, step)
  {
    f := NOTHING;
    var value := from;
    assert from == from + 0 * step;
    NextOnStride(from, from, step);
    while value <= to
      invariant from <= value && OnStride(value, from, step)
      invariant !f.isAny
      invariant forall v :: v in f.mask <==> v <= to && v < value && OnStride(v, from, step)
    {
      NextOnStride(value, from, step);
      f := f.(mask := f.mask + {value});
      value := value + step;
    }
  }

  method Every(step: int) returns (f: ScheduleField)
    ensures !f.isAny
    ensures forall v :: Matches(f, v) <==> step > 0 && v <= 63 && OnStride(v, 0, step)
  {
    f := NOTHING;
    if step <= 0 {
      return;
    }
    f := Stride(0, 63, step);
  }

  method RangeEvery(from: int, to: int, step: int) returns (f: ScheduleField)
    ensures !f.isAny
    ensures forall v ::
      Matches(f, v) <==> step > 0 && 0 <= from <= to <= 63 && v <= to && OnStride(v, from, step)
  {
    f := NOTHING;
    if step <= 0 || from < 0 || to < 0 || from > to || to > 63 {
      return;
    }
    f := Stride(from, to, step);
  }

  /** One out-of-range value empties the whole list. */
  method List(values: seq<int>) returns (f: ScheduleField)
    ensures !f.isAny
    ensures forall v ::
      Matches(f, v) <==> v in values && forall i :: 0 <= i < |values| ==> 0 <= values[i] <= 63
  {
    f := NOTHING;
    var index := 0;
    while index < |values|
      invariant 0 <= index <= |values|
      invariant !f.isAny
      invariant forall i :: 0 <= i < index ==> 0 <= values[i] <= 63
      invariant forall v :: v in f.mask <==> v in values[..index]
    {
      var value := values[index];
      if value < 0 || value > 63 {
        f := NOTHING;
        return;
      }
      f := f.(mask := f.mask + {value});
      assert values[..index + 1] == values[..index] + [value];
      index := index + 1;
    }
    assert values[..index] == values;
  }

  /** Bit v of allowedMask(min, max); a maximum of 63 or more lets every bit through. */
  predicate AllowedBit(v: int, min: int, max: int) {
    0 <= v <= 63 && (max >= 63 || min <= v <= max)
  }

  predicate WithinRange(f: ScheduleField, min: int, max: int) {
    f.isAny || (f.mask != {} && (set v | v in f.mask && AllowedBit(v, min, max)) != {})
  }

  /** Validation of a field accepts exactly the fields that admit a value of the range. */
  lemma WithinRangeExact(f: ScheduleField, min: int, max: int)
    requires 0 <= min <= max < 63
    ensures WithinRange(f, min, max) <==> exists v :: min <= v <= max && Matches(f, v)
  {
    var met := set v | v in f.mask && AllowedBit(v, min, max);
    if f.isAny {
      assert Matches(f, min);
    } else if met != {} {
      var v :| v in met;
      assert min <= v <= max && Matches(f, v);
    } else {
      forall v | min <= v <= max
        ensures !Matches(f, v)
      {
        assert v !in met;
      }
    }
  }
}
