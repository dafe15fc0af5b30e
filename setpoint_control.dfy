/**
 * The setpoint control of the dashboard: a slider and a number box sharing one
 * local value. Which handler reports a value to the parent (onValueChange) and
 * which only stores it is made explicit by each method's `reported` result.
 */
module SetpointControl {
  import opened Wrappers

  /** `Math.max(min, Math.min(max, x))`, the commit rule of the number box. */
  function Clamp(min: real, max: real, x: real): (r: real)
    ensures min <= max ==> min <= r <= max
    ensures min <= x <= max ==> r == x
    ensures x < min ==> r == min
    ensures min <= max < x ==> r == max
    ensures max < min ==> r == min
  {
    var upper := if x < max then x else max;
    if min < upper then upper else min
  }

  /** On a well-formed range the clamp picks the point of [min, max] closest to the input. */
  lemma ClampIsNearest(min: real, max: real, x: real, y: real)
    requires min <= max && min <= y <= max
    ensures Distance(Clamp(min, max, x), x) <= Distance(y, x)
  {
  }

  function Distance(a: real, b: real): real {
    if a < b then b - a else a - b
  }

  /** Committing twice is committing once. */
  lemma ClampIdempotent(min: real, max: real, x: real)
    ensures Clamp(min, max, Clamp(min, max, x)) == Clamp(min, max, x)
  {
  }

  class SetpointControl {
    const min: real
    const max: real
    const step: real
    /** The `value` prop as last rendered. */
    var value: real
    /** The local state shared by the slider and the number box. */
    var inputValue: real

    /** First render: the defaults of the props, and the local value taken from `value`. */
    constructor (value: real, min: real := 0.0, max: real := 100.0, step: real := 1.0)
      ensures this.value == value && inputValue == value
      ensures this.min == min && this.max == max && this.step == step
    {
      this.value := value;
      this.min := min;
      this.max := max;
      this.step := step;
      inputValue := value;
    }

    /** A later render with a new `value` prop: useState keeps the local value it already has. */
    method PropsChanged(newValue: real)
      modifies this
      ensures value == newValue && inputValue == old(inputValue)
    {
      value := newValue;
    }

    /** handleSliderChange: stores and reports the slider's value at once, without clamping it. */
    method SliderChange(newValue: real) returns (reported: Option<real>)
      modifies this
      ensures inputValue == newValue && reported == Some(newValue)
      ensures value == old(value)
    {
      inputValue := newValue;
      reported := Some(newValue);
    }

    /** handleInputChange: typing stores the value and reports nothing. */
    method InputChange(newValue: real) returns (reported: Option<real>)
      modifies this
      ensures inputValue == newValue && reported.None?
      ensures value == old(value)
    {
      inputValue := newValue;
      reported := None;
    }

    /** handleInputBlur: the clamped value is both stored and reported. */
    method InputBlur() returns (reported: Option<real>)
      modifies this
      ensures inputValue == Clamp(min, max, old(inputValue))
      ensures reported == Some(inputValue)
      ensures min <= max ==> min <= inputValue <= max
      ensures value == old(value)
    {
      var clamped := Clamp(min, max, inputValue);
      inputValue := clamped;
      reported := Some(clamped);
    }

    /** handleInputKeyPress: Enter is a blur; any other key changes nothing. */
    method InputKeyPress(key: string) returns (reported: Option<real>)
      modifies this
      ensures key == "Enter" ==> inputValue == Clamp(min, max, old(inputValue)) && reported == Some(inputValue)
      ensures key != "Enter" ==> inputValue == old(inputValue) && reported.None?
      ensures value == old(value)
    {
      if key == "Enter" {
        reported := InputBlur();
      } else {
        reported := None;
      }
    }
  }

  /**
   * On the temperature card (0 to 100, step 0.5), typing 150 reports nothing, and
   * Enter commits and reports 100.
   */
  method TypeOutOfRangeThenEnter() returns (typed: Option<real>, committed: Option<real>, shown: real)
    ensures typed.None?
    ensures committed == Some(100.0) && shown == 100.0
  {
    var card := new SetpointControl(80.0, 0.0, 100.0, 0.5);
    typed := card.InputChange(150.0);
    committed := card.InputKeyPress("Enter");
    shown := card.inputValue;
  }

  /** A new `value` prop (a poll's setpoint) does not overwrite what the user has typed. */
  method NewPropKeepsTypedValue(typedValue: real, polledValue: real) returns (shown: real)
    ensures shown == typedValue
  {
    var card := new SetpointControl(80.0, 0.0, 100.0, 0.5);
    var _ := card.InputChange(typedValue);
    card.PropsChanged(polledValue);
    shown := card.inputValue;
  }
}
