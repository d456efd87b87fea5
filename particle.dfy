/** One particle of a collision event: a set of optional quantities filled
    from one of five positional column layouts, the guards of the derived
    kinematic quantities, and the queries answered by the PDG table. */
module Particles {
  import opened Common

  /** Every quantity a particle can carry; an absent quantity is unset. */
  datatype Field =
    | T | X | Y | Z | Mass | E | Px | Py | Pz | Pdg | Id | Charge
    | Ncoll | FormTime | Xsecfac | ProcIdOrigin | ProcTypeOrigin | TLastColl
    | PdgMother1 | PdgMother2 | BaryonNumber | Strangeness | Weight | Status

  /** The five column layouts a particle row can be read from. */
  datatype Layout =
    | Oscar2013
    | Oscar2013Extended
    | Oscar2013ExtendedIC
    | Oscar2013ExtendedPhotons
    | Jetscape

  /** What the particle library knows about one PDG code. */
  datatype PdgEntry = PdgEntry(
    valid: bool,
    charge: real,
    j: real,
    jSpin: int,
    isMeson: bool,
    isBaryon: bool,
    isHadron: bool,
    hasStrange: bool,
    hasCharm: bool,
    hasBottom: bool,
    hasTop: bool)

  /** The external numerical and particle-data routines the record relies on:
      the PDG table lookup and the floating-point functions. */
  datatype Lib = Lib(
    pdgid: real -> PdgEntry,
    sqrt: real -> real,
    atan2: (real, real) -> real,
    arccos: real -> real,
    log: real -> real)

  datatype ParticleError =
    | MissingArgument      // only one of format and row given (ValueError)
    | UnsupportedFormat    // unknown layout name (ValueError)
    | Corrupted            // row length does not fit the layout (ValueError)
    | NotSet(field: Field) // a required quantity read while unset (ValueError)
    | OutsideLightCone     // t > |z| violated (ValueError)

  /** The state of a particle: the quantities that are set, and whether its PDG
      code was found valid when it was last assigned. */
  datatype Record = Record(fields: map<Field, real>, pdgValid: bool)

  /** The layout named by a format string, if any. */
  function LayoutNamed(name: string): (r: Option<Layout>)
    ensures r.Some? <==> name in {"Oscar2013", "Oscar2013Extended", "Oscar2013Extended_IC",
                                  "Oscar2013Extended_Photons", "JETSCAPE"}
  {
    if name == "Oscar2013" then Some(Oscar2013)
    else if name == "Oscar2013Extended" then Some(Oscar2013Extended)
    else if name == "Oscar2013Extended_IC" then Some(Oscar2013ExtendedIC)
    else if name == "Oscar2013Extended_Photons" then Some(Oscar2013ExtendedPhotons)
    else if name == "JETSCAPE" then Some(Jetscape)
    else None
  }

  /** The fields of a layout in column order. */
  function Columns(layout: Layout): seq<Field> {
    match layout
    case Oscar2013 => [T, X, Y, Z, Mass, E, Px, Py, Pz, Pdg, Id, Charge]
    case Oscar2013Extended =>
      [T, X, Y, Z, Mass, E, Px, Py, Pz, Pdg, Id, Charge, Ncoll, FormTime, Xsecfac,
       ProcIdOrigin, ProcTypeOrigin, TLastColl, PdgMother1, PdgMother2, BaryonNumber, Strangeness]
    case Oscar2013ExtendedIC =>
      [T, X, Y, Z, Mass, E, Px, Py, Pz, Pdg, Id, Charge, Ncoll, FormTime, Xsecfac,
       ProcIdOrigin, ProcTypeOrigin, TLastColl, PdgMother1, PdgMother2, BaryonNumber, Strangeness]
    case Oscar2013ExtendedPhotons =>
      [T, X, Y, Z, Mass, E, Px, Py, Pz, Pdg, Id, Charge, Ncoll, FormTime, Xsecfac,
       ProcIdOrigin, ProcTypeOrigin, TLastColl, PdgMother1, PdgMother2, Weight]
    case Jetscape => [Id, Pdg, Status, E, Px, Py, Pz]
  }

  /** The column a field is read from in a layout, if the layout has it. */
  function ColumnOf(layout: Layout, f: Field): Option<nat> {
    if layout == Jetscape then
      match f
      case Id => Some(0)
      case Pdg => Some(1)
      case Status => Some(2)
      case E => Some(3)
      case Px => Some(4)
      case Py => Some(5)
      case Pz => Some(6)
      case _ => None
    else
      match f
      case T => Some(0)
      case X => Some(1)
      case Y => Some(2)
      case Z => Some(3)
      case Mass => Some(4)
      case E => Some(5)
      case Px => Some(6)
      case Py => Some(7)
      case Pz => Some(8)
      case Pdg => Some(9)
      case Id => Some(10)
      case Charge => Some(11)
      case Ncoll => if layout == Oscar2013 then None else Some(12)
      case FormTime => if layout == Oscar2013 then None else Some(13)
      case Xsecfac => if layout == Oscar2013 then None else Some(14)
      case ProcIdOrigin => if layout == Oscar2013 then None else Some(15)
      case ProcTypeOrigin => if layout == Oscar2013 then None else Some(16)
      case TLastColl => if layout == Oscar2013 then None else Some(17)
      case PdgMother1 => if layout == Oscar2013 then None else Some(18)
      case PdgMother2 => if layout == Oscar2013 then None else Some(19)
      case BaryonNumber =>
        if layout in {Oscar2013Extended, Oscar2013ExtendedIC} then Some(20) else None
      case Strangeness =>
        if layout in {Oscar2013Extended, Oscar2013ExtendedIC} then Some(21) else None
      case Weight => if layout == Oscar2013ExtendedPhotons then Some(20) else None
      case Status => None
  }

  /** Column `i` of a layout is found again by the column lookup. */
  lemma ColumnAt(layout: Layout, i: nat)
    requires i < |Columns(layout)|
    ensures ColumnOf(layout, Columns(layout)[i]) == Some(i)
  {
    if layout == Jetscape {
      JetscapeColumnAt(i);
    } else if i < 12 {
      CommonColumnAt(layout, i);
    } else {
      ExtendedColumnAt(layout, i);
    }
  }

  lemma JetscapeColumnAt(i: nat)
    requires i < 7
    ensures ColumnOf(Jetscape, Columns(Jetscape)[i]) == Some(i)
  {
    var cols := [Id, Pdg, Status, E, Px, Py, Pz];
    assert Columns(Jetscape) == cols;
    if i == 0 {} else if i == 1 {} else if i == 2 {} else if i == 3 {}
    else if i == 4 {} else if i == 5 {} else {}
  }

  /** The twelve columns every OSCAR layout starts with. */
  lemma CommonColumnAt(layout: Layout, i: nat)
    requires layout != Jetscape && i < 12
    ensures i < |Columns(layout)| && ColumnOf(layout, Columns(layout)[i]) == Some(i)
  {
    var cols := [T, X, Y, Z, Mass, E, Px, Py, Pz, Pdg, Id, Charge];
    assert Columns(layout)[..12] == cols;
    assert Columns(layout)[i] == cols[i];
    if i == 0 {} else if i == 1 {} else if i == 2 {} else if i == 3 {}
    else if i == 4 {} else if i == 5 {} else if i == 6 {} else if i == 7 {}
    else if i == 8 {} else if i == 9 {} else if i == 10 {} else {}
  }

  /** The columns the extended OSCAR layouts add. */
  lemma ExtendedColumnAt(layout: Layout, i: nat)
    requires layout != Jetscape && 12 <= i < |Columns(layout)|
    ensures ColumnOf(layout, Columns(layout)[i]) == Some(i)
  {
    if i < 20 {
      HistoryColumnAt(layout, i);
    } else if layout == Oscar2013ExtendedPhotons {
      assert Columns(layout)[i] == Weight;
    } else if i == 20 {
      assert Columns(layout)[i] == BaryonNumber;
    } else {
      assert Columns(layout)[i] == Strangeness;
    }
  }

  /** The collision-history columns 12 to 19 of the extended layouts. */
  lemma HistoryColumnAt(layout: Layout, i: nat)
    requires layout != Jetscape && 12 <= i < 20 && i < |Columns(layout)|
    ensures ColumnOf(layout, Columns(layout)[i]) == Some(i)
  {
    var cols := [Ncoll, FormTime, Xsecfac, ProcIdOrigin, ProcTypeOrigin, TLastColl, PdgMother1, PdgMother2];
    assert Columns(layout)[12..20] == cols;
    assert Columns(layout)[i] == cols[i - 12];
    assert layout != Oscar2013;
    if i < 16 {
      if i == 12 {} else if i == 13 {} else if i == 14 {} else {}
    } else {
      if i == 16 {} else if i == 17 {} else if i == 18 {} else {}
    }
  }

  /** The column list and the column lookup describe the same table. */
  lemma ColumnsIndexed(layout: Layout)
    ensures forall i :: 0 <= i < |Columns(layout)| ==> ColumnOf(layout, Columns(layout)[i]) == Some(i)
    ensures forall f :: ColumnOf(layout, f).Some? ==>
      ColumnOf(layout, f).value < |Columns(layout)| && Columns(layout)[ColumnOf(layout, f).value] == f
  {
    forall i | 0 <= i < |Columns(layout)|
      ensures ColumnOf(layout, Columns(layout)[i]) == Some(i)
    {
      ColumnAt(layout, i);
    }
    forall f | ColumnOf(layout, f).Some?
      ensures ColumnOf(layout, f).value < |Columns(layout)| && Columns(layout)[ColumnOf(layout, f).value] == f
    {
      FieldAt(layout, f);
    }
  }

  /** A field the lookup finds sits in the column the lookup names. */
  lemma FieldAt(layout: Layout, f: Field)
    requires ColumnOf(layout, f).Some?
    ensures ColumnOf(layout, f).value < |Columns(layout)| && Columns(layout)[ColumnOf(layout, f).value] == f
  {
    match layout
    case Oscar2013 =>
    case Oscar2013Extended =>
    case Oscar2013ExtendedIC =>
    case Oscar2013ExtendedPhotons =>
    case Jetscape =>
  }

  /** The row lengths each layout accepts: the full width, or for the two
      older extended layouts up to two trailing columns fewer. */
  predicate AcceptsLength(layout: Layout, n: nat) {
    var width := |Columns(layout)|;
    n == width
    || (layout in {Oscar2013Extended, Oscar2013ExtendedIC} && width - 2 <= n <= width)
  }

  /** The fields set after the first `i` columns of the layout have been
      visited: a column beyond the end of the row leaves its field unset. */
  function Assigned(cols: seq<Field>, row: seq<real>, i: nat): map<Field, real>
    requires i <= |cols|
  {
    if i == 0 then map[]
    else
      var m := Assigned(cols, row, i - 1);
      if |row| < i then m - {cols[i - 1]} else m[cols[i - 1] := row[i - 1]]
  }

  /** With distinct columns, a field is set exactly when its column was
      visited and lies within the row, and it then holds that column's value. */
  lemma {:induction false} AssignedLookup(cols: seq<Field>, row: seq<real>, i: nat, f: Field)
    requires i <= |cols|
    requires forall a, b :: 0 <= a < b < i ==> cols[a] != cols[b]
    ensures f in Assigned(cols, row, i) <==> exists j :: 0 <= j < i && j < |row| && cols[j] == f
    ensures forall j :: 0 <= j < i && j < |row| && cols[j] == f ==> Assigned(cols, row, i)[f] == row[j]
    decreases i
  {
    if i > 0 {
      AssignedLookup(cols, row, i - 1, f);
      if f != cols[i - 1] {
        assert forall j :: 0 <= j < i && j < |row| && cols[j] == f ==> j < i - 1;
      } else {
        assert forall j :: 0 <= j < i - 1 ==> cols[j] != f;
      }
    }
  }

  predicate OptionalField(f: Field) {
    f == BaryonNumber || f == Strangeness
  }

  /** The property getter: the value when set; when unset, baryon number and
      strangeness read as None and every other quantity raises. */
  function Get(r: Record, f: Field): (v: Result<Option<real>, ParticleError>)
    ensures v.Success? <==> (f in r.fields || OptionalField(f))
    ensures v.Success? ==> (v.value.Some? <==> f in r.fields)
    ensures f in r.fields ==> v.value == Some(r.fields[f])
    ensures v.Failure? ==> v.error == NotSet(f)
  {
    if f in r.fields then Success(Some(r.fields[f]))
    else if OptionalField(f) then Success(None)
    else Failure(NotSet(f))
  }

  /** A read of a quantity a computation needs: raises when unset. */
  function Require(r: Record, f: Field): (v: Result<real, ParticleError>)
    ensures v.Success? <==> f in r.fields
    ensures v.Success? ==> v.value == r.fields[f]
    ensures v.Failure? ==> v.error == NotSet(f)
  {
    if f in r.fields then Success(r.fields[f]) else Failure(NotSet(f))
  }

  function Abs(x: real): real {
    if x < 0.0 then -x else x
  }

  function SumOfSquares(a: real, b: real, c: real): real {
    a * a + b * b + c * c
  }

  function DifferenceOfSquares(a: real, b: real): real {
    a * a - b * b
  }

  /** `|p|`, through the library's square root. */
  function PAbs(r: Record, lib: Lib): (v: Result<real, ParticleError>)
    ensures v.Success? <==> Px in r.fields && Py in r.fields && Pz in r.fields
    ensures v.Success? ==> v.value == lib.sqrt(SumOfSquares(r.fields[Px], r.fields[Py], r.fields[Pz]))
  {
    var px :- Require(r, Px);
    var py :- Require(r, Py);
    var pz :- Require(r, Pz);
    Success(lib.sqrt(SumOfSquares(px, py, pz)))
  }

  /** `|p_T|`, through the library's square root. */
  function PtAbs(r: Record, lib: Lib): (v: Result<real, ParticleError>)
    ensures v.Success? <==> Px in r.fields && Py in r.fields
    ensures v.Success? ==> v.value == lib.sqrt(SumOfSquares(r.fields[Px], r.fields[Py], 0.0))
  {
    var px :- Require(r, Px);
    var py :- Require(r, Py);
    Success(lib.sqrt(SumOfSquares(px, py, 0.0)))
  }

  const PhiThreshold: real := 0.000001
  const MassFloor: real := 0.000001
  const RapidityFloor: real := 0.0000000001

  /** The azimuthal angle: 0 when both transverse components are below the
      threshold, the library's `atan2(py, px)` otherwise. */
  function Phi(r: Record, lib: Lib): (v: Result<real, ParticleError>)
    ensures v.Success? <==> Px in r.fields && Py in r.fields
    ensures v.Success? && Abs(r.fields[Px]) < PhiThreshold && Abs(r.fields[Py]) < PhiThreshold
      ==> v.value == 0.0
    ensures Px in r.fields && Py in r.fields
      && !(Abs(r.fields[Px]) < PhiThreshold && Abs(r.fields[Py]) < PhiThreshold)
      ==> v == Success(lib.atan2(r.fields[Py], r.fields[Px]))
  {
    var px :- Require(r, Px);
    var py :- Require(r, Py);
    if Abs(px) < PhiThreshold && Abs(py) < PhiThreshold then Success(0.0)
    else Success(lib.atan2(py, px))
  }

  /** The polar angle: 0 when `|p|` is 0, otherwise `arccos(pz / |p|)`. */
  function Theta(r: Record, lib: Lib): (v: Result<real, ParticleError>)
    ensures v.Success? <==> Px in r.fields && Py in r.fields && Pz in r.fields
    ensures v.Success? ==> var p := PAbs(r, lib).value;
      v.value == if p == 0.0 then 0.0 else lib.arccos(r.fields[Pz] / p)
  {
    var p :- PAbs(r, lib);
    var pz := r.fields[Pz];
    if p == 0.0 then Success(0.0) else Success(lib.arccos(pz / p))
  }

  /** The denominator of the rapidities: a difference smaller in size than
      the floor is shifted up by the floor, so it is never zero. */
  function Shifted(d: real): (s: real)
    ensures s != 0.0
    ensures Abs(d) < RapidityFloor ==> 0.0 < s < 2.0 * RapidityFloor
    ensures Abs(d) >= RapidityFloor ==> s == d
  {
    if Abs(d) < RapidityFloor then d + RapidityFloor else d
  }

  /** The momentum rapidity `ln((E + pz) / (E - pz)) / 2`; a vanishing
      `E - pz` is shifted by the floor before the division. */
  function MomentumRapidity(r: Record, lib: Lib): (v: Result<real, ParticleError>)
    ensures v.Success? <==> E in r.fields && Pz in r.fields
    ensures v.Success? ==> var e, pz := r.fields[E], r.fields[Pz];
      v.value == 0.5 * lib.log((e + pz) / Shifted(e - pz))
  {
    var e :- Require(r, E);
    var pz :- Require(r, Pz);
    Success(0.5 * lib.log((e + pz) / Shifted(e - pz)))
  }

  /** The pseudorapidity `ln((|p| + pz) / (|p| - pz)) / 2`; a vanishing
      `|p| - pz` is shifted like above. */
  function Pseudorapidity(r: Record, lib: Lib): (v: Result<real, ParticleError>)
    ensures v.Success? <==> Px in r.fields && Py in r.fields && Pz in r.fields
    ensures v.Success? ==> var p, pz := PAbs(r, lib).value, r.fields[Pz];
      v.value == 0.5 * lib.log((p + pz) / Shifted(p - pz))
  {
    var p :- PAbs(r, lib);
    var pz := r.fields[Pz];
    Success(0.5 * lib.log((p + pz) / Shifted(p - pz)))
  }

  /** The spatial rapidity, defined only inside the light cone `t > |z|`. */
  function SpatialRapidity(r: Record, lib: Lib): (v: Result<real, ParticleError>)
    ensures v.Success? <==> T in r.fields && Z in r.fields && r.fields[T] > Abs(r.fields[Z])
    ensures v.Success? ==> var t, z := r.fields[T], r.fields[Z];
      t - z > 0.0 && (t + z) / (t - z) > 0.0 && v.value == 0.5 * lib.log((t + z) / (t - z))
    ensures T in r.fields && Z in r.fields && r.fields[T] <= Abs(r.fields[Z])
      ==> v == Failure(OutsideLightCone)
  {
    var t :- Require(r, T);
    var z :- Require(r, Z);
    if t > Abs(z) then
      assert t + z > 0.0 && t - z > 0.0;
      Success(0.5 * lib.log((t + z) / (t - z)))
    else Failure(OutsideLightCone)
  }

  /** The proper time, defined only inside the light cone `t > |z|`. */
  function ProperTime(r: Record, lib: Lib): (v: Result<real, ParticleError>)
    ensures v.Success? <==> T in r.fields && Z in r.fields && r.fields[T] > Abs(r.fields[Z])
    ensures v.Success? ==> var tau2 := DifferenceOfSquares(r.fields[T], r.fields[Z]);
      tau2 > 0.0 && v.value == lib.sqrt(tau2)
  {
    var t :- Require(r, T);
    var z :- Require(r, Z);
    if t > Abs(z) then
      InsideLightCone(t, z);
      Success(lib.sqrt(DifferenceOfSquares(t, z)))
    else Failure(OutsideLightCone)
  }

  lemma PositiveProduct(a: real, b: real)
    requires a > 0.0 && b > 0.0
    ensures a * b > 0.0
  {
  }

  /** Inside the light cone the squared interval `t^2 - z^2` is positive. */
  lemma InsideLightCone(t: real, z: real)
    requires t > Abs(z)
    ensures DifferenceOfSquares(t, z) > 0.0
  {
    PositiveProduct(t - z, t + z);
    var q := (t - z) * (t + z);
    assert DifferenceOfSquares(t, z) == q;
  }

  /** The mass from `E^2 - |p|^2`: its square root when that difference
      exceeds the floor, otherwise 0. */
  function MassFromEnergyMomentum(r: Record, lib: Lib): (v: Result<real, ParticleError>)
    ensures v.Success? <==> E in r.fields && Px in r.fields && Py in r.fields && Pz in r.fields
    ensures v.Success? ==>
      var p := lib.sqrt(SumOfSquares(r.fields[Px], r.fields[Py], r.fields[Pz]));
      var m2 := DifferenceOfSquares(r.fields[E], p);
      v.value == (if m2 > MassFloor then lib.sqrt(m2) else 0.0)
  {
    var e :- Require(r, E);
    var p :- PAbs(r, lib);
    var m2 := DifferenceOfSquares(e, p);
    if Abs(m2) > MassFloor && m2 > 0.0 then Success(lib.sqrt(m2)) else Success(0.0)
  }

  /** The charge looked up from the PDG code, None unless the code is valid.
      `validSeen` is the validity flag as it stands when the lookup runs. */
  function ChargeFromPdg(validSeen: bool, r: Record, lib: Lib): (v: Result<Option<real>, ParticleError>)
    ensures !validSeen ==> v == Success(None)
    ensures validSeen && Pdg in r.fields ==> v == Success(Some(lib.pdgid(r.fields[Pdg]).charge))
  {
    if !validSeen then Success(None)
    else
      var pdg :- Require(r, Pdg);
      Success(Some(lib.pdgid(pdg).charge))
  }

  datatype Classification = Meson | Baryon | Hadron | Strange | HeavyFlavor

  /** The PDG classifications; every one is false for an invalid code. */
  function Classify(r: Record, lib: Lib, c: Classification): (v: Result<bool, ParticleError>)
    ensures !r.pdgValid ==> v == Success(false)
    ensures r.pdgValid ==> (v.Success? <==> Pdg in r.fields)
    ensures r.pdgValid && Pdg in r.fields && c == Meson ==>
      v == Success(lib.pdgid(r.fields[Pdg]).isMeson)
    ensures r.pdgValid && Pdg in r.fields && c == Baryon ==>
      v == Success(lib.pdgid(r.fields[Pdg]).isBaryon)
    ensures r.pdgValid && Pdg in r.fields && c == Hadron ==>
      v == Success(lib.pdgid(r.fields[Pdg]).isHadron)
    ensures r.pdgValid && Pdg in r.fields && c == Strange ==>
      v == Success(lib.pdgid(r.fields[Pdg]).hasStrange)
    ensures r.pdgValid && Pdg in r.fields && c == HeavyFlavor ==>
      var entry := lib.pdgid(r.fields[Pdg]);
      v == Success(entry.hasCharm || entry.hasBottom || entry.hasTop)
  {
    if !r.pdgValid then Success(false)
    else
      var pdg :- Require(r, Pdg);
      var entry := lib.pdgid(pdg);
      match c
      case Meson => Success(entry.isMeson)
      case Baryon => Success(entry.isBaryon)
      case Hadron => Success(entry.isHadron)
      case Strange => Success(entry.hasStrange)
      case HeavyFlavor => Success(entry.hasCharm || entry.hasBottom || entry.hasTop)
  }

  /** The total spin J; None for an invalid code. */
  function Spin(r: Record, lib: Lib): (v: Result<Option<real>, ParticleError>)
    ensures !r.pdgValid ==> v == Success(None)
    ensures r.pdgValid && Pdg in r.fields ==> v == Success(Some(lib.pdgid(r.fields[Pdg]).j))
  {
    if !r.pdgValid then Success(None)
    else
      var pdg :- Require(r, Pdg);
      Success(Some(lib.pdgid(pdg).j))
  }

  /** The spin degeneracy 2J + 1; None for an invalid code. */
  function SpinDegeneracy(r: Record, lib: Lib): (v: Result<Option<int>, ParticleError>)
    ensures !r.pdgValid ==> v == Success(None)
    ensures r.pdgValid && Pdg in r.fields ==> v == Success(Some(lib.pdgid(r.fields[Pdg]).jSpin))
  {
    if !r.pdgValid then Success(None)
    else
      var pdg :- Require(r, Pdg);
      Success(Some(lib.pdgid(pdg).jSpin))
  }

  /** Every accepted row length covers the PDG column and, for JETSCAPE, the
      energy and momentum columns. */
  lemma {:induction false} AcceptedRowCovers(layout: Layout, row: seq<real>)
    requires AcceptsLength(layout, |row|)
    ensures Pdg in Assigned(Columns(layout), row, |Columns(layout)|)
    ensures layout == Jetscape ==> var m := Assigned(Columns(layout), row, |Columns(layout)|);
      E in m && Px in m && Py in m && Pz in m
  {
    if layout == Jetscape {
      JetscapeRowCovers(row);
    } else {
      var cols := Columns(layout);
      ColumnsDistinct(layout);
      assert cols[9] == Pdg;
      ColumnAssigned(cols, row, 9);
    }
  }

  lemma {:induction false} JetscapeRowCovers(row: seq<real>)
    requires |row| == 7
    ensures var m := Assigned(Columns(Jetscape), row, 7);
      Pdg in m && E in m && Px in m && Py in m && Pz in m
  {
    var cols := Columns(Jetscape);
    forall a, b | 0 <= a < b < 7 ensures cols[a] != cols[b] {
      JetscapeColumnAt(a);
      JetscapeColumnAt(b);
    }
    var m := Assigned(cols, row, 7);
    ColumnAssigned(cols, row, 1);
    assert cols[1] == Pdg;
    ColumnAssigned(cols, row, 3);
    assert cols[3] == E;
    ColumnAssigned(cols, row, 4);
    assert cols[4] == Px;
    ColumnAssigned(cols, row, 5);
    assert cols[5] == Py;
    ColumnAssigned(cols, row, 6);
    assert cols[6] == Pz;
  }

  /** A visited column within the row sets its field to its value. */
  lemma {:induction false} ColumnAssigned(cols: seq<Field>, row: seq<real>, j: nat)
    requires forall a, b :: 0 <= a < b < |cols| ==> cols[a] != cols[b]
    requires j < |cols| && j < |row|
    ensures cols[j] in Assigned(cols, row, |cols|) && Assigned(cols, row, |cols|)[cols[j]] == row[j]
  {
    AssignedLookup(cols, row, |cols|, cols[j]);
  }

  /** No field appears in two columns of a layout. */
  lemma ColumnsDistinct(layout: Layout)
    ensures forall a, b :: 0 <= a < b < |Columns(layout)| ==> Columns(layout)[a] != Columns(layout)[b]
  {
    forall a, b | 0 <= a < b < |Columns(layout)|
      ensures Columns(layout)[a] != Columns(layout)[b]
    {
      ColumnAt(layout, a);
      ColumnAt(layout, b);
    }
  }

  /** Reading a row in a layout. `chargeAfterValidity` says whether the
      JETSCAPE charge lookup sees the freshly computed PDG validity. */
  function FromArrayWith(layout: Layout, row: seq<real>, lib: Lib, chargeAfterValidity: bool)
    : Result<Record, ParticleError>
  {
    if !AcceptsLength(layout, |row|) then Failure(Corrupted)
    else
      var cols := Assigned(Columns(layout), row, |Columns(layout)|);
      AcceptedRowCovers(layout, row);
      var valid := lib.pdgid(cols[Pdg]).valid;
      if layout != Jetscape then Success(Record(cols, valid))
      else
        var mass :- MassFromEnergyMomentum(Record(cols, false), lib);
        var withMass := cols[Mass := mass];
        var charge :- ChargeFromPdg(chargeAfterValidity && valid, Record(withMass, valid), lib);
        var fields := if charge.Some? then withMass[Charge := charge.value] else withMass - {Charge};
        Success(Record(fields, valid))
  }

  /** Reading a row in a layout, with the JETSCAPE charge taken from the PDG
      table whenever the code is valid. */
  function FromArray(layout: Layout, row: seq<real>, lib: Lib): Result<Record, ParticleError> {
    FromArrayWith(layout, row, lib, true)
  }

  /** The constructor: both arguments or neither; neither leaves every
      quantity unset. */
  function FromArguments(format: Option<string>, row: Option<seq<real>>, lib: Lib)
    : Result<Record, ParticleError>
  {
    if format.Some? != row.Some? then Failure(MissingArgument)
    else if format.None? then Success(Record(map[], false))
    else match LayoutNamed(format.value)
      case None => Failure(UnsupportedFormat)
      case Some(layout) => FromArray(layout, row.value, lib)
  }

  /** The row lengths accepted, written out per layout. */
  predicate ExpectedLength(layout: Layout, n: nat) {
    match layout
    case Oscar2013 => n == 12
    case Oscar2013Extended => 20 <= n <= 22
    case Oscar2013ExtendedIC => 20 <= n <= 22
    case Oscar2013ExtendedPhotons => n == 21
    case Jetscape => n == 7
  }

  /** Construction fails with "corrupted" exactly on the wrong lengths. */
  lemma FromArrayLength(layout: Layout, row: seq<real>, lib: Lib)
    ensures FromArray(layout, row, lib).Success? <==> ExpectedLength(layout, |row|)
    ensures !ExpectedLength(layout, |row|) ==> FromArray(layout, row, lib) == Failure(Corrupted)
  {
    if AcceptsLength(layout, |row|) {
      AcceptedRowCovers(layout, row);
    }
  }

  /** After the column loop of an accepted row, a field is set exactly when
      the layout has it at a column inside the row, and holds that column. */
  lemma AssignedColumns(layout: Layout, row: seq<real>, f: Field)
    requires AcceptsLength(layout, |row|)
    ensures var m := Assigned(Columns(layout), row, |Columns(layout)|);
      && (f in m <==> ColumnOf(layout, f).Some? && ColumnOf(layout, f).value < |row|)
      && (f in m ==> m[f] == row[ColumnOf(layout, f).value])
  {
    var cols := Columns(layout);
    ColumnsDistinct(layout);
    AssignedLookup(cols, row, |cols|, f);
    if f in Assigned(cols, row, |cols|) {
      var j :| 0 <= j < |cols| && j < |row| && cols[j] == f;
      ColumnAt(layout, j);
    }
    if ColumnOf(layout, f).Some? {
      FieldAt(layout, f);
    }
  }

  /** For the OSCAR layouts every field in the layout whose column lies in the
      row holds that column's value, and every other field stays unset. */
  lemma FromArrayFields(layout: Layout, row: seq<real>, lib: Lib, f: Field)
    requires layout != Jetscape && ExpectedLength(layout, |row|)
    ensures FromArray(layout, row, lib).Success?
    ensures var r := FromArray(layout, row, lib).value;
      && (f in r.fields <==> ColumnOf(layout, f).Some? && ColumnOf(layout, f).value < |row|)
      && (f in r.fields ==> r.fields[f] == row[ColumnOf(layout, f).value])
      && r.pdgValid == lib.pdgid(row[9]).valid
  {
    FromArrayLength(layout, row, lib);
    AssignedColumns(layout, row, f);
    AssignedColumns(layout, row, Pdg);
  }

  /** The seven JETSCAPE columns, read in order. */
  lemma JetscapeAssigned(row: seq<real>)
    requires |row| == 7
    ensures Assigned(Columns(Jetscape), row, 7)
      == map[Id := row[0], Pdg := row[1], Status := row[2], E := row[3], Px := row[4], Py := row[5], Pz := row[6]]
  {
    var cols := Columns(Jetscape);
    assert Assigned(cols, row, 1) == map[Id := row[0]];
    assert Assigned(cols, row, 2) == map[Id := row[0], Pdg := row[1]];
    assert Assigned(cols, row, 3) == map[Id := row[0], Pdg := row[1], Status := row[2]];
    assert Assigned(cols, row, 4) == map[Id := row[0], Pdg := row[1], Status := row[2], E := row[3]];
    assert Assigned(cols, row, 5)
      == map[Id := row[0], Pdg := row[1], Status := row[2], E := row[3], Px := row[4]];
    assert Assigned(cols, row, 6)
      == map[Id := row[0], Pdg := row[1], Status := row[2], E := row[3], Px := row[4], Py := row[5]];
  }

  /** For JETSCAPE the seven columns are read, the mass is derived, and the
      charge is set exactly when the PDG code is valid. */
  lemma FromArrayJetscape(row: seq<real>, lib: Lib)
    requires |row| == 7
    ensures FromArray(Jetscape, row, lib).Success?
    ensures var r := FromArray(Jetscape, row, lib).value;
      && r.fields.Keys == {Id, Pdg, Status, E, Px, Py, Pz, Mass} + (if r.pdgValid then {Charge} else {})
      && r.fields[Id] == row[0] && r.fields[Pdg] == row[1] && r.fields[Status] == row[2]
      && r.fields[E] == row[3] && r.fields[Px] == row[4] && r.fields[Py] == row[5] && r.fields[Pz] == row[6]
      && r.pdgValid == lib.pdgid(row[1]).valid
      && (r.pdgValid ==> r.fields[Charge] == lib.pdgid(row[1]).charge)
      && r.fields[Mass] == MassFromEnergyMomentum(
           Record(map[E := row[3], Px := row[4], Py := row[5], Pz := row[6]], false), lib).value
  {
    JetscapeAssigned(row);
  }

  /** The JETSCAPE charge as the constructor computes it: the lookup runs
      before the validity flag is set, so it always finds the flag unset. */
  function FromArrayAsWritten(layout: Layout, row: seq<real>, lib: Lib): Result<Record, ParticleError> {
    FromArrayWith(layout, row, lib, false)
  }

  /** As written, no JETSCAPE particle gets a charge, valid code or not; with
      the lookup after the validity check, valid codes get theirs. */
  lemma JetscapeChargeNeverSetAsWritten(row: seq<real>, lib: Lib)
    requires |row| == 7
    ensures FromArrayAsWritten(Jetscape, row, lib).Success?
    ensures Charge !in FromArrayAsWritten(Jetscape, row, lib).value.fields
    ensures FromArray(Jetscape, row, lib).Success?
    ensures lib.pdgid(row[1]).valid ==> Charge in FromArray(Jetscape, row, lib).value.fields
  {
    FromArrayJetscape(row, lib);
    JetscapeAssigned(row);
  }

  /** A particle object: its quantities are updated in place by the setters. */
  class Particle {
    var fields: map<Field, real>
    var pdgValid: bool

    function Snapshot(): Record
      reads this
    {
      Record(fields, pdgValid)
    }

    /** A particle with every quantity unset. */
    constructor Empty()
      ensures Snapshot() == Record(map[], false)
    {
      fields := map[];
      pdgValid := false;
    }

    /** The constructor with its argument checks. */
    static method New(format: Option<string>, row: Option<seq<real>>, lib: Lib)
      returns (r: Result<Particle, ParticleError>)
      ensures FromArguments(format, row, lib).Failure? ==>
        r.Failure? && r.error == FromArguments(format, row, lib).error
      ensures FromArguments(format, row, lib).Success? ==>
        r.Success? && fresh(r.value) && r.value.Snapshot() == FromArguments(format, row, lib).value
    {
      if format.Some? != row.Some? {
        return Failure(MissingArgument);
      }
      var p := new Particle.Empty();
      if format.Some? {
        var err := p.InitializeFromArray(format.value, row.value, lib);
        if err.Some? {
          return Failure(err.value);
        }
      }
      return Success(p);
    }

    /** Fills the quantities of a particle with every quantity unset from a
        row, column by column. */
    method InitializeFromArray(format: string, row: seq<real>, lib: Lib) returns (err: Option<ParticleError>)
      requires fields == map[] && !pdgValid
      modifies this
      ensures var expected := FromArguments(Some(format), Some(row), lib);
        && (expected.Failure? ==> err == Some(expected.error))
        && (expected.Success? ==> err.None? && Snapshot() == expected.value)
    {
      var named := LayoutNamed(format);
      if named.None? {
        return Some(UnsupportedFormat);
      }
      var layout := named.value;
      if !AcceptsLength(layout, |row|) {
        return Some(Corrupted);
      }
      var cols := Columns(layout);
      var i := 0;
      while i < |cols|
        invariant 0 <= i <= |cols|
        invariant fields == Assigned(cols, row, i)
      {
        if |row| < i + 1 {
          fields := fields - {cols[i]};
        } else {
          fields := fields[cols[i] := row[i]];
        }
        i := i + 1;
      }
      AcceptedRowCovers(layout, row);
      var valid := lib.pdgid(fields[Pdg]).valid;
      if layout == Jetscape {
        var mass := MassFromEnergyMomentum(Record(fields, false), lib);
        fields := fields[Mass := mass.value];
        var charge := ChargeFromPdg(valid, Record(fields, valid), lib);
        if charge.value.Some? {
          fields := fields[Charge := charge.value.value];
        } else {
          fields := fields - {Charge};
        }
      }
      pdgValid := valid;
      return None;
    }

    /** The setter of every quantity but the PDG code; None unsets it. */
    method Set(f: Field, v: Option<real>)
      requires f != Pdg
      modifies this
      ensures fields == if v.Some? then old(fields)[f := v.value] else old(fields) - {f}
      ensures pdgValid == old(pdgValid)
    {
      if v.Some? {
        fields := fields[f := v.value];
      } else {
        fields := fields - {f};
      }
    }

    /** The PDG code setter: the validity flag follows the new code. */
    method SetPdg(v: real, lib: Lib)
      modifies this
      ensures fields == old(fields)[Pdg := v]
      ensures pdgValid == lib.pdgid(v).valid
    {
      fields := fields[Pdg := v];
      pdgValid := lib.pdgid(v).valid;
    }
  }

  /** A value set through a setter is what the getter returns, and nothing
      else changes. */
  lemma SetThenGet(r: Record, f: Field, v: real, g: Field)
    ensures Get(Record(r.fields[f := v], r.pdgValid), f) == Success(Some(v))
    ensures g != f ==> Get(Record(r.fields[f := v], r.pdgValid), g) == Get(r, g)
  {
  }
}
