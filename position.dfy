/** The sky position of planobs/models/position.py: right ascension and
    declination in degrees with four optional error bars. Construction
    validates the ranges; the two "minus" errors are replaced by their absolute
    value before validation. */
module Positions {
  import opened Wrappers

  datatype Position = Position(
    ra: real,
    dec: real,
    raErrPlus: Option<real>,
    raErrMinus: Option<real>,
    decErrPlus: Option<real>,
    decErrMinus: Option<real>)

  datatype PositionField = Ra | Dec | RaErrPlus | RaErrMinus | DecErrPlus | DecErrMinus

  /** An optional value that, when given, lies in [lo, hi]. */
  predicate OptionalIn(v: Option<real>, lo: real, hi: real) {
    v.None? || lo <= v.value <= hi
  }

  /** An optional value that, when given, is at least lo. */
  predicate OptionalAtLeast(v: Option<real>, lo: real) {
    v.None? || lo <= v.value
  }

  /** The field constraints of Position. */
  predicate ValidPosition(p: Position) {
    && 0.0 <= p.ra <= 360.0
    && -90.0 <= p.dec <= 90.0
    && OptionalIn(p.raErrPlus, 0.0, 360.0)
    && OptionalAtLeast(p.raErrMinus, 0.0)
    && OptionalIn(p.decErrPlus, 0.0, 90.0)
    && OptionalAtLeast(p.decErrMinus, 0.0)
  }

  function Abs(x: real): (r: real)
    ensures r >= 0.0 && (r == x || r == -x)
  {
    if x < 0.0 then -x else x
  }

  /** minus_validator, run on ra_err_minus and dec_err_minus before the range checks. */
  function MinusValidator(value: Option<real>): (r: Option<real>)
    ensures r.None? <==> value.None?
    ensures r.Some? ==> r.value >= 0.0 && (r.value == value.value || r.value == -value.value)
  {
    match value
    case None => None
    case Some(v) => Some(Abs(v))
  }

  /** Position(ra=..., dec=..., ...): the stored minus errors are the absolute
      values of the inputs and are never negative; the other fields are
      stored as given, and construction fails, naming every offending field,
      when one of them is out of range. */
  function NewPosition(
    ra: real, dec: real, raErrPlus: Option<real> := None, raErrMinus: Option<real> := None,
    decErrPlus: Option<real> := None, decErrMinus: Option<real> := None)
    : (r: Result<Position, set<PositionField>>)
    ensures r.Success? <==> 0.0 <= ra <= 360.0 && -90.0 <= dec <= 90.0
                            && OptionalIn(raErrPlus, 0.0, 360.0) && OptionalIn(decErrPlus, 0.0, 90.0)
    ensures r.Success? ==> ValidPosition(r.value)
                           && r.value.ra == ra && r.value.dec == dec
                           && r.value.raErrPlus == raErrPlus && r.value.decErrPlus == decErrPlus
                           && r.value.raErrMinus == MinusValidator(raErrMinus)
                           && r.value.decErrMinus == MinusValidator(decErrMinus)
    ensures r.Failure? ==> r.error != {}
                           && (Ra in r.error <==> !(0.0 <= ra <= 360.0))
                           && (Dec in r.error <==> !(-90.0 <= dec <= 90.0))
                           && (RaErrPlus in r.error <==> !OptionalIn(raErrPlus, 0.0, 360.0))
                           && (DecErrPlus in r.error <==> !OptionalIn(decErrPlus, 0.0, 90.0))
                           && RaErrMinus !in r.error && DecErrMinus !in r.error
  {
    var p := Position(ra, dec, raErrPlus, MinusValidator(raErrMinus), decErrPlus, MinusValidator(decErrMinus));
    var errs :=
      (if 0.0 <= p.ra <= 360.0 then {} else {Ra})
      + (if -90.0 <= p.dec <= 90.0 then {} else {Dec})
      + (if OptionalIn(p.raErrPlus, 0.0, 360.0) then {} else {RaErrPlus})
      + (if OptionalAtLeast(p.raErrMinus, 0.0) then {} else {RaErrMinus})
      + (if OptionalIn(p.decErrPlus, 0.0, 90.0) then {} else {DecErrPlus})
      + (if OptionalAtLeast(p.decErrMinus, 0.0) then {} else {DecErrMinus});
    if errs == {} then Success(p) else Failure(errs)
  }

  /** A negative minus error is accepted and gives the same position as its
      absolute value. */
  lemma NegativeMinusErrorsNormalised(
    ra: real, dec: real, raErrPlus: Option<real>, raErrMinus: real, decErrPlus: Option<real>, decErrMinus: real)
    ensures NewPosition(ra, dec, raErrPlus, Some(-raErrMinus), decErrPlus, Some(-decErrMinus))
            == NewPosition(ra, dec, raErrPlus, Some(raErrMinus), decErrPlus, Some(decErrMinus))
  {
  }

  /** from_rectangle: ra_err = (plus, minus) and dec_err = (plus, minus). */
  function FromRectangle(ra: real, dec: real, raErr: (real, real), decErr: (real, real))
    : (r: Result<Position, set<PositionField>>)
    ensures r.Success? ==> r.value.ra == ra && r.value.dec == dec
    ensures r.Success? ==> r.value.raErrPlus == Some(raErr.0) && r.value.raErrMinus == Some(Abs(raErr.1))
                           && r.value.decErrPlus == Some(decErr.0) && r.value.decErrMinus == Some(Abs(decErr.1))
    ensures r.Success? <==> 0.0 <= ra <= 360.0 && -90.0 <= dec <= 90.0
                            && 0.0 <= raErr.0 <= 360.0 && 0.0 <= decErr.0 <= 90.0
  {
    NewPosition(ra, dec, Some(raErr.0), Some(raErr.1), Some(decErr.0), Some(decErr.1))
  }

  /** from_circle: the declination errors are the radius and the right
      ascension errors are radius / cos(dec). The cosine is not modelled:
      `cosDec` stands for np.cos(np.radians(dec)), which a floating-point
      cosine never returns as exactly zero. The result is symmetric, and it
      exists only for a radius in [0, 90]. */
  function FromCircle(ra: real, dec: real, errRadius: real, cosDec: real)
    : (r: Result<Position, set<PositionField>>)
    requires cosDec != 0.0
    ensures r.Success? ==> r.value.ra == ra && r.value.dec == dec
    ensures r.Success? ==> && r.value.raErrPlus == r.value.raErrMinus == Some(errRadius / cosDec)
                           && r.value.decErrPlus == r.value.decErrMinus == Some(errRadius)
                           && 0.0 <= errRadius <= 90.0
    ensures r.Success? <==> 0.0 <= ra <= 360.0 && -90.0 <= dec <= 90.0
                            && 0.0 <= errRadius / cosDec <= 360.0 && 0.0 <= errRadius <= 90.0
  {
    var raDelta := errRadius / cosDec;
    var decDelta := errRadius;
    NewPosition(ra, dec, Some(raDelta), Some(raDelta), Some(decDelta), Some(decDelta))
  }

  /** At the equator (cos 0 = 1) a circle of radius 2 gives errors of 2 on every side. */
  lemma CircleAtEquator()
    ensures FromCircle(30.0, 0.0, 2.0, 1.0) == Success(Position(30.0, 0.0, Some(2.0), Some(2.0), Some(2.0), Some(2.0)))
  {
  }

  datatype Corner = Corner(ra: real, dec: real)

  /** The corners in the order get_rectangle returns them: (ul, ur, ll, lr). */
  datatype Rectangle = Rectangle(ul: Corner, ur: Corner, ll: Corner, lr: Corner)

  /** get_rectangle: the left edge at ra - ra_err_minus, the right edge at
      ra + ra_err_plus, the top at dec + dec_err_plus and the bottom at
      dec - dec_err_minus. In Python an unset error makes the arithmetic
      raise, modelled as None. */
  function GetRectangle(p: Position): (r: Option<Rectangle>)
    ensures r.Some? <==> p.raErrPlus.Some? && p.raErrMinus.Some? && p.decErrPlus.Some? && p.decErrMinus.Some?
    ensures r.Some? ==>
              && r.value.ul.ra == r.value.ll.ra && r.value.ur.ra == r.value.lr.ra
              && r.value.ul.dec == r.value.ur.dec && r.value.ll.dec == r.value.lr.dec
              && r.value.ur.ra - r.value.ul.ra == p.raErrPlus.value + p.raErrMinus.value
              && r.value.ul.dec - r.value.ll.dec == p.decErrPlus.value + p.decErrMinus.value
    ensures r.Some? ==>
              && r.value.ul == Corner(p.ra - p.raErrMinus.value, p.dec + p.decErrPlus.value)
              && r.value.lr == Corner(p.ra + p.raErrPlus.value, p.dec - p.decErrMinus.value)
  {
    if p.raErrPlus.None? || p.raErrMinus.None? || p.decErrPlus.None? || p.decErrMinus.None? then None
    else
      var left := p.ra - p.raErrMinus.value;
      var right := p.ra + p.raErrPlus.value;
      var top := p.dec + p.decErrPlus.value;
      var bottom := p.dec - p.decErrMinus.value;
      Some(Rectangle(Corner(left, top), Corner(right, top), Corner(left, bottom), Corner(right, bottom)))
  }

  /** For a valid position with every error set, the rectangle is well
      ordered (left <= right, bottom <= top) and holds the centre. */
  lemma RectangleContainsCentre(p: Position)
    requires ValidPosition(p)
    requires p.raErrPlus.Some? && p.raErrMinus.Some? && p.decErrPlus.Some? && p.decErrMinus.Some?
    ensures var r := GetRectangle(p).value;
            && r.ul.ra <= p.ra <= r.ur.ra
            && r.ll.dec <= p.dec <= r.ul.dec
            && r.ul == Corner(r.ll.ra, r.ur.dec)
            && r.lr == Corner(r.ur.ra, r.ll.dec)
  {
  }

  /** A position built from a rectangle gives back that rectangle's error
      bars as the sides of its bounding rectangle. */
  lemma RectangleOfFromRectangle(ra: real, dec: real, raErr: (real, real), decErr: (real, real))
    requires FromRectangle(ra, dec, raErr, decErr).Success?
    ensures var r := GetRectangle(FromRectangle(ra, dec, raErr, decErr).value).value;
            && r.ul == Corner(ra - Abs(raErr.1), dec + decErr.0)
            && r.lr == Corner(ra + raErr.0, dec - Abs(decErr.1))
  {
  }
}
