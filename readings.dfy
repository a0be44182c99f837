/** Values held in the store's arrays.

    A slot of a reading array holds a number, or the JavaScript `null`
    (a missing reading) or `undefined` (a read past the end of an array).
    Nothing in the store distinguishes `null` from `undefined`, so both are
    `None` here. */
module Readings {

  datatype Option<+T> = None | Some(value: T)

  /** A temperature, humidity or heat-index reading, or a gap. */
  type Reading = Option<real>

  /** `s[j]` as JavaScript evaluates it: the element inside the array,
      `undefined` outside it. */
  function Element<T>(s: seq<T>, j: int): Option<T>
  {
    if 0 <= j < |s| then Some(s[j]) else None
  }

  /** `s[s.length - 1]`: the last element, or `undefined` for an empty array. */
  function LastElement<T>(s: seq<T>): Option<T>
  {
    Element(s, |s| - 1)
  }

  /** `s[j]` of an array whose slots may themselves be gaps, so that a gap
      and `undefined` read alike. */
  function At<T>(s: seq<Option<T>>, j: int): Option<T>
  {
    match Element(s, j)
    case Some(x) => x
    case None => None
  }

  /** `s[0]` of an array of readings. */
  function First<T>(s: seq<Option<T>>): Option<T>
  {
    At(s, 0)
  }

  /** `s[s.length - 1]` of an array of readings. */
  function Last<T>(s: seq<Option<T>>): Option<T>
  {
    At(s, |s| - 1)
  }
}
