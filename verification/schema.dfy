/**
 The request and response schemas of the PVT service: the eight scalar inputs of a
 mixture-property calculation, the three scalar outputs, and the field constraints
 the validation layer enforces on each side of the calculation.
 */
module Schema {

  /** The request fields, in declaration order. */
  datatype RequestField = P | T | GammaOil | GammaGas | GammaWat | Wct | Rp | QLiq

  /** The response fields, in declaration order. */
  datatype ResponseField = QMix | RhoMix | MuMix

  /** Pressure (Pa), temperature (K), relative densities of oil, gas and water,
      water cut (fraction), producing gas-oil ratio (integer, m3/t) and liquid rate (m3). */
  datatype PvtRequest = PvtRequest(
    P: real,
    T: real,
    GammaOil: real,
    GammaGas: real,
    GammaWat: real,
    Wct: real,
    Rp: int,
    QLiq: real)

  /** Mixture flow rate, mixture density and mixture viscosity. */
  datatype PvtResponse = PvtResponse(QMix: real, RhoMix: real, MuMix: real)

  /** A request the calculation may be run on: every constraint of the request schema holds. */
  predicate ValidRequest(x: PvtRequest) {
    && x.P > 0.0
    && x.T > 0.0
    && x.GammaOil > 0.0
    && x.GammaGas > 0.0
    && x.GammaWat > 0.0
    && 0.0 <= x.Wct <= 1.0
    && x.Rp > 0
    && x.QLiq > 0.0
  }

  /** A response the service may return: all three outputs strictly positive. */
  predicate ValidResponse(y: PvtResponse) {
    y.QMix > 0.0 && y.RhoMix > 0.0 && y.MuMix > 0.0
  }

  /** The constraint of one request field, read on its own. */
  predicate Accepts(x: PvtRequest, f: RequestField) {
    match f
    case P => x.P > 0.0
    case T => x.T > 0.0
    case GammaOil => x.GammaOil > 0.0
    case GammaGas => x.GammaGas > 0.0
    case GammaWat => x.GammaWat > 0.0
    case Wct => x.Wct >= 0.0 && x.Wct <= 1.0
    case Rp => x.Rp > 0
    case QLiq => x.QLiq > 0.0
  }

  /** The constraint of one response field, read on its own. */
  predicate AcceptsOutput(y: PvtResponse, f: ResponseField) {
    match f
    case QMix => y.QMix > 0.0
    case RhoMix => y.RhoMix > 0.0
    case MuMix => y.MuMix > 0.0
  }

  /** Every request field, in declaration order. */
  const RequestFields: seq<RequestField> := [P, T, GammaOil, GammaGas, GammaWat, Wct, Rp, QLiq]

  /** Every response field, in declaration order. */
  const ResponseFields: seq<ResponseField> := [QMix, RhoMix, MuMix]

  lemma RequestFieldsComplete()
    ensures forall f: RequestField :: f in RequestFields
  {
    forall f: RequestField ensures f in RequestFields {
      match f
      case P => assert RequestFields[0] == f;
      case T => assert RequestFields[1] == f;
      case GammaOil => assert RequestFields[2] == f;
      case GammaGas => assert RequestFields[3] == f;
      case GammaWat => assert RequestFields[4] == f;
      case Wct => assert RequestFields[5] == f;
      case Rp => assert RequestFields[6] == f;
      case QLiq => assert RequestFields[7] == f;
    }
  }

  lemma ResponseFieldsComplete()
    ensures forall f: ResponseField :: f in ResponseFields
  {
    forall f: ResponseField ensures f in ResponseFields {
      match f
      case QMix => assert ResponseFields[0] == f;
      case RhoMix => assert ResponseFields[1] == f;
      case MuMix => assert ResponseFields[2] == f;
    }
  }

  lemma RequestFieldsDistinct()
    ensures Distinct(RequestFields)
  {
    forall i, j | 0 <= i < j < |RequestFields| ensures RequestFields[i] != RequestFields[j] {
    }
  }

  lemma ValidRequestFieldwise(x: PvtRequest)
    ensures ValidRequest(x) <==> forall f: RequestField :: Accepts(x, f)
  {
    if !ValidRequest(x) {
      if x.P <= 0.0 { assert !Accepts(x, P); }
      else if x.T <= 0.0 { assert !Accepts(x, T); }
      else if x.GammaOil <= 0.0 { assert !Accepts(x, GammaOil); }
      else if x.GammaGas <= 0.0 { assert !Accepts(x, GammaGas); }
      else if x.GammaWat <= 0.0 { assert !Accepts(x, GammaWat); }
      else if !(0.0 <= x.Wct <= 1.0) { assert !Accepts(x, Wct); }
      else if x.Rp <= 0 { assert !Accepts(x, Rp); }
      else { assert !Accepts(x, QLiq); }
    }
  }

  lemma ValidResponseFieldwise(y: PvtResponse)
    ensures ValidResponse(y) <==> forall f: ResponseField :: AcceptsOutput(y, f)
  {
    if !ValidResponse(y) {
      if y.QMix <= 0.0 { assert !AcceptsOutput(y, QMix); }
      else if y.RhoMix <= 0.0 { assert !AcceptsOutput(y, RhoMix); }
      else { assert !AcceptsOutput(y, MuMix); }
    }
  }

  predicate Distinct<F(==)>(fs: seq<F>) {
    forall i, j :: 0 <= i < j < |fs| ==> fs[i] != fs[j]
  }

  /** The fields of `fs` that `ok` rejects, in the order of `fs`. */
  function Offending<F(!new)>(fs: seq<F>, ok: F -> bool): (errs: seq<F>)
    ensures forall f :: f in errs <==> f in fs && !ok(f)
    ensures Distinct(fs) ==> Distinct(errs)
    ensures |errs| <= |fs|
  {
    if fs == [] then []
    else
      var rest := Offending(fs[1..], ok);
      assert forall f :: f in fs[1..] ==> f in fs;
      if ok(fs[0]) then rest else [fs[0]] + rest
  }

  /** Two checks that agree on every field report the same offending fields. */
  lemma {:induction false} SameVerdicts<F(!new)>(fs: seq<F>, ok1: F -> bool, ok2: F -> bool)
    requires forall f :: f in fs ==> ok1(f) == ok2(f)
    ensures Offending(fs, ok1) == Offending(fs, ok2)
  {
    if fs != [] {
      assert forall f :: f in fs[1..] ==> f in fs;
      SameVerdicts(fs[1..], ok1, ok2);
    }
  }

  /** Validation of a request: every offending field, each once, in declaration order.
      The request is accepted exactly when the list is empty. */
  function RequestErrors(x: PvtRequest): (errs: seq<RequestField>)
    ensures forall f: RequestField :: f in errs <==> !Accepts(x, f)
    ensures errs == [] <==> ValidRequest(x)
    ensures Distinct(errs)
  {
    RequestFieldsComplete();
    RequestFieldsDistinct();
    ValidRequestFieldwise(x);
    Offending(RequestFields, f => Accepts(x, f))
  }

  /** Validation of a response: every non-positive output, each once, in declaration order. */
  function ResponseErrors(y: PvtResponse): (errs: seq<ResponseField>)
    ensures forall f: ResponseField :: f in errs <==> !AcceptsOutput(y, f)
    ensures errs == [] <==> ValidResponse(y)
    ensures Distinct(errs)
  {
    ResponseFieldsComplete();
    ValidResponseFieldwise(y);
    Offending(ResponseFields, f => AcceptsOutput(y, f))
  }

  /** The sample request documented with the schema. */
  const Example: PvtRequest :=
    PvtRequest(P := 40.5, T := 296.0, GammaOil := 0.8, GammaGas := 0.7, GammaWat := 1.0,
               Wct := 0.5, Rp := 100, QLiq := 90.0)

  /** The boundary cases of the request schema: both ends of the water-cut interval are
      accepted, values just outside it are rejected, and a zero pressure or a zero gas-oil
      ratio is rejected. */
  lemma RequestBoundaries()
    ensures ValidRequest(Example)
    ensures ValidRequest(Example.(Wct := 0.0)) && ValidRequest(Example.(Wct := 1.0))
    ensures RequestErrors(Example.(Wct := -0.01)) == [Wct]
    ensures RequestErrors(Example.(Wct := 1.01)) == [Wct]
    ensures RequestErrors(Example.(P := 0.0)) == [P]
    ensures RequestErrors(Example.(Rp := 0)) == [Rp]
  {
    assert ValidRequest(Example);
    SingleOffender(Example.(Wct := -0.01), Wct);
    SingleOffender(Example.(Wct := 1.01), Wct);
    SingleOffender(Example.(P := 0.0), P);
    SingleOffender(Example.(Rp := 0), Rp);
  }

  /** A request that fails the constraint of field `f` alone is rejected naming `f` alone. */
  lemma SingleOffender(x: PvtRequest, f: RequestField)
    requires !Accepts(x, f)
    requires forall g: RequestField :: g != f ==> Accepts(x, g)
    ensures RequestErrors(x) == [f]
  {
    var errs := RequestErrors(x);
    forall i | 0 <= i < |errs| ensures errs[i] == f {
      assert errs[i] in errs;
    }
    OnlyElement(errs, f);
  }

  /** A sequence without repeats whose every element is `f`, and which holds `f`, is `[f]`. */
  lemma OnlyElement<F>(s: seq<F>, f: F)
    requires Distinct(s) && f in s
    requires forall i :: 0 <= i < |s| ==> s[i] == f
    ensures s == [f]
  {
    if |s| > 1 {
      FirstTwoDiffer(s);
      assert false;
    }
  }

  lemma FirstTwoDiffer<F>(s: seq<F>)
    requires Distinct(s) && |s| > 1
    ensures s[0] != s[1]
  {
  }
}
