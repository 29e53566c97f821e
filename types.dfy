/** Values shared by the tracking chain and the camera widgets. */
module Types {

  datatype Option<+T> = None | Some(value: T)

  /** A Python exception that aborts an evaluation. */
  datatype PyError = IndexError | TypeError

  /** The result of a Python evaluation that may raise; usable with `:-`. */
  datatype Outcome<+T> = Ok(value: T) | Raise(error: PyError) {
    predicate IsFailure() { Raise? }

    function PropagateFailure<U>(): Outcome<U>
      requires Raise?
    {
      Raise(error)
    }

    function Extract(): T
      requires Ok?
    {
      value
    }
  }

  /** One field of a tracking result row: a number, numpy's not-a-number
      sentinel, or Python's `None`. */
  datatype Value = Num(x: real) | NaN | PyNone

  /** Orientation of an image in quarter turns, as numpy reduces it. */
  type QuarterTurns = t: int | 0 <= t < 4

  /** A camera image, abstracted to its identity and its orientation. */
  datatype Image = Image(id: int, quarterTurns: QuarterTurns)

  /** `np.rot90(img, k)`: k quarter turns; numpy takes k modulo 4. */
  function Rot90(img: Image, k: int): (r: Image)
    ensures r.id == img.id
    ensures (r.quarterTurns - img.quarterTurns - k) % 4 == 0
  {
    Image(img.id, (img.quarterTurns + k) % 4)
  }

  /** A 2D position or extent with exact coordinates. */
  datatype Point = Point(x: real, y: real)

  /** A parameter value as a parameter tree holds it. */
  datatype ParamValue = IntValue(i: int) | RealValue(r: real) | PairValue(p: Point) | OtherValue(tag: string)

  /** A named collection of parameters whose values the GUI and the tracking
      code read and overwrite in place. */
  class Parametrized {
    const name: string
    var values: map<string, ParamValue>

    constructor (name: string, values: map<string, ParamValue>)
      ensures this.name == name && this.values == values
    {
      this.name := name;
      this.values := values;
    }
  }

  /** True when `key` holds a pair, so that `params[key][0]` and
      `params[key][1]` can be read. */
  predicate HasPair(values: map<string, ParamValue>, key: string)
  {
    key in values && values[key].PairValue?
  }
}
