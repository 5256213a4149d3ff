/**
 * The three converters that flip the Z axis before writing:
 * `convert_npy_to_inc_correct_order` (`convert_npy_correct_order.py`),
 * `convert_npy_to_inc_full` (`convert_npy_fixed.py`) and
 * `convert_npy_to_inc` (`convert_npy_to_inc_inverted_z.py`). Each takes
 * component 0 of a four-dimensional array, flips the first axis, flattens,
 * optionally multiplies by `1 / 9.869233e-16`, and writes `/`-closed blocks.
 */
module ZFlip {
  import opened Text
  import opened Chunking
  import opened Numbers
  import opened NdArray
  import opened IncWriter
  import opened IncFixed
  import P = PlainReader

  /** `data[:, :, :, 0]` for a four-dimensional array, the array itself for a three-dimensional one. */
  function Slab(data: Npy): (r: Prepared<Array3>)
    requires WellFormed(data) && !data.OtherRank?
    ensures r.Failed? <==> data.Rank4? && data.b.d3 == 0
    ensures r.Failed? ==> r.error == IndexError
    ensures r.Ready? ==> Shaped(r.value)
  {
    match data
    case Rank3(a) => Ready(a)
    case Rank4(b) =>
      match Component(b, 0)
      case None => Failed(IndexError)
      case Some(a) => Ready(a)
  }

  /**
   * The values `convert_npy_correct_order.py` writes: the flip `[::-1, :, :]`, then
   * `transpose(2, 1, 0).flatten(order='F')`. The flip raises `IndexError`
   * below rank three, the transpose `ValueError` above rank four.
   */
  function CorrectOrderValues(data: Npy): Prepared<seq<real>>
    requires WellFormed(data)
  {
    match data
    case OtherRank(shape, _) => if |shape| < 3 then Failed(IndexError) else Failed(ValueError)
    case _ =>
      match Slab(data)
      case Failed(e) => Failed(e)
      case Ready(a) => Ready(FFlatten(Transpose210(FlipZ(a))))
  }

  /**
   * The values `convert_npy_fixed.py` and `convert_npy_to_inc_inverted_z.py`
   * write: the flip, then `flatten()`. Above rank four the flip reverses
   * the blocks of the first axis; below rank three it raises `IndexError`.
   */
  function FlippedValues(data: Npy): Prepared<seq<real>>
    requires WellFormed(data)
  {
    match data
    case OtherRank(shape, flat) =>
      if |shape| < 3 then Failed(IndexError)
      else Ready(FlipOuter(flat, shape[0], Product(shape[1..])))
    case _ =>
      match Slab(data)
      case Failed(e) => Failed(e)
      case Ready(a) => Ready(CFlatten(FlipZ(a).cells))
  }

  /** `flattened_data * (1.0 / 9.869233e-16)` when converting: the same numbers as dividing by one millidarcy. */
  function Scaled(convert: bool, vs: seq<real>): (r: seq<real>)
    ensures |r| == |vs|
    ensures forall k :: 0 <= k < |vs| ==> r[k] == if convert then ToMilliDarcy(vs[k]) else vs[k]
  {
    if convert then seq(|vs|, k requires 0 <= k < |vs| => vs[k] * (1.0 / MilliDarcy)) else vs
  }

  /** What `convert_npy_to_inc_correct_order` leaves behind. */
  function CorrectOrderFile(data: Npy, convert: bool, fmt: real -> string): IncOutcome
    requires WellFormed(data)
  {
    match CorrectOrderValues(data)
    case Failed(e) => Raised(e, None)
    case Ready(vs) => PermOrPoroFile(convert, fmt, Scaled(convert, vs))
  }

  /** What `convert_npy_to_inc_full` leaves behind. */
  function FullFile(data: Npy, convert: bool, fmt: real -> string): IncOutcome
    requires WellFormed(data)
  {
    match FlippedValues(data)
    case Failed(e) => Raised(e, None)
    case Ready(vs) => PermOrPoroFile(convert, fmt, Scaled(convert, vs))
  }

  /** What the inverted-Z `convert_npy_to_inc` leaves behind. */
  function InvertedZFile(data: Npy, keyword: string, convert: bool, fmt: real -> string): IncOutcome
    requires WellFormed(data)
  {
    match FlippedValues(data)
    case Failed(e) => Raised(e, None)
    case Ready(vs) => KeywordFile(keyword, fmt, Scaled(convert, vs))
  }

  // ---------------------------------------------------------------- converters

  /** `convert_npy_to_inc_correct_order(npy_file_path, inc_file_path, convert_perm_to_mD)` on the loaded array. */
  method ConvertCorrectOrder(data: Npy, convert: bool, fmt: real -> string) returns (r: IncOutcome)
    requires WellFormed(data)
    ensures r == CorrectOrderFile(data, convert, fmt)
  {
    var flattened := CorrectOrderValues(data);
    if flattened.Failed? {
      return Raised(flattened.error, None);
    }
    var values := Scaled(convert, flattened.value);
    r := WritePermOrPoro(convert, fmt, values);
  }

  /** `convert_npy_to_inc_full(npy_file_path, inc_file_path, convert_perm_to_mD)` on the loaded array. */
  method ConvertFull(data: Npy, convert: bool, fmt: real -> string) returns (r: IncOutcome)
    requires WellFormed(data)
    ensures r == FullFile(data, convert, fmt)
  {
    var flattened := FlippedValues(data);
    if flattened.Failed? {
      return Raised(flattened.error, None);
    }
    var values := Scaled(convert, flattened.value);
    r := WritePermOrPoro(convert, fmt, values);
  }

  /** The inverted-Z `convert_npy_to_inc(npy_file_path, inc_file_path, keyword, convert_perm_to_mD)` on the loaded array. */
  method ConvertInvertedZ(data: Npy, keyword: string, convert: bool, fmt: real -> string) returns (r: IncOutcome)
    requires WellFormed(data)
    ensures r == InvertedZFile(data, keyword, convert, fmt)
  {
    var flattened := FlippedValues(data);
    if flattened.Failed? {
      return Raised(flattened.error, None);
    }
    var values := Scaled(convert, flattened.value);
    r := WriteSingleBlock(keyword, fmt, values);
  }

  // ---------------------------------------------------------------- properties

  /**
   * Despite its "x slowest" comment, the transpose and Fortran flatten of
   * `convert_npy_correct_order.py` give the same sequence as the C flatten
   * of `convert_npy_fixed.py`; the two files differ only above rank four.
   */
  lemma {:induction false} CorrectOrderIsCOrder(data: Npy)
    requires WellFormed(data) && !data.OtherRank?
    ensures CorrectOrderValues(data) == FlippedValues(data)
    ensures forall convert: bool, fmt: real -> string :: CorrectOrderFile(data, convert, fmt) == FullFile(data, convert, fmt)
  {
    var s := Slab(data);
    if s.Ready? {
      FortranOfTransposed(FlipZ(s.value));
    }
  }

  /** Which arrays each preparation refuses, and with which exception. */
  lemma {:induction false} PreparationErrors(data: Npy)
    requires WellFormed(data)
    ensures CorrectOrderValues(data).Failed?
        <==> (data.Rank4? && data.b.d3 == 0) || data.OtherRank?
    ensures CorrectOrderValues(data).Failed? ==>
        (CorrectOrderValues(data).error == ValueError <==> data.OtherRank? && |data.shape| >= 5)
    ensures FlippedValues(data).Failed?
        <==> (data.Rank4? && data.b.d3 == 0) || (data.OtherRank? && |data.shape| < 3)
    ensures FlippedValues(data).Failed? ==> FlippedValues(data).error == IndexError
  {
  }

  /**
   * After the flip, position `(z * ny + y) * nx + x` holds cell `[nz - 1 - z, y, x]`
   * of the array (of component 0 of a four-dimensional one), for both ways of flattening.
   */
  lemma {:induction false} FlippedAtIndex(data: Npy, z: nat, y: nat, x: nat)
    requires WellFormed(data) && !data.OtherRank? && Slab(data).Ready?
    requires var a := Slab(data).value; z < a.d0 && y < a.d1 && x < a.d2
    ensures var a := Slab(data).value;
      var vs := FlippedValues(data).value;
      |vs| == Size(a) && Offset(a.d1, a.d2, z, y, x) < |vs|
      && vs[Offset(a.d1, a.d2, z, y, x)] == a.cells[a.d0 - 1 - z][y][x]
      && CorrectOrderValues(data).value == vs
  {
    var a := Slab(data).value;
    FlippedAt(a, z, y, x);
    CorrectOrderIsCOrder(data);
  }

  /** The C-order values of the array as loaded (of component 0 of a four-dimensional one). */
  function Loaded(data: Npy): seq<real>
    requires WellFormed(data)
  {
    match data
    case OtherRank(_, flat) => flat
    case _ =>
      match Slab(data)
      case Failed(_) => []
      case Ready(a) => CFlatten(a.cells)
  }

  /** The flip moves values only: what is written is a permutation of what was loaded. */
  lemma {:induction false} FlipPermutes(data: Npy)
    requires WellFormed(data) && FlippedValues(data).Ready?
    ensures multiset(FlippedValues(data).value) == multiset(Loaded(data))
    ensures |FlippedValues(data).value| == |Loaded(data)|
  {
    match data
    case OtherRank(shape, flat) =>
    case _ =>
      FlipZPermutes(Slab(data).value);
      CFlattenLength(FlipZ(Slab(data).value));
      CFlattenLength(Slab(data).value);
  }

  lemma PoroIsKeyword()
    ensures Keyword("PORO")
  {
    assert "PORO"[0] == 'P' && "PORO"[1] == 'O' && "PORO"[2] == 'R' && "PORO"[3] == 'O';
  }

  /** The name-triggered reader reads the values of the first block of a written permeability or porosity file. */
  lemma {:induction false} PermOrPoroReadsBack(convert: bool, fmt: real -> string, toFloat: string -> Option<real>, vs: seq<real>)
    requires TokenFormatter(fmt) && Readable(fmt, toFloat)
    requires PermOrPoroFile(convert, fmt, vs).Written?
    ensures P.ReadPlainProperty(PermOrPoroFile(convert, fmt, vs).text, toFloat) == Reread(fmt, toFloat, vs)
  {
    if convert {
      PermFileReadsFirstBlock(fmt, toFloat, vs);
    } else {
      PoroIsKeyword();
      BlockReadsBack("PORO", fmt, toFloat, vs);
    }
  }

  /** A written file of either block converter reads back as the (scaled) prepared values. */
  lemma {:induction false} BlockFilesReadBack(data: Npy, convert: bool, fmt: real -> string, toFloat: string -> Option<real>)
    requires WellFormed(data) && TokenFormatter(fmt) && Readable(fmt, toFloat)
    ensures CorrectOrderFile(data, convert, fmt).Written? ==>
      P.ReadPlainProperty(CorrectOrderFile(data, convert, fmt).text, toFloat)
        == Reread(fmt, toFloat, Scaled(convert, CorrectOrderValues(data).value))
    ensures FullFile(data, convert, fmt).Written? ==>
      P.ReadPlainProperty(FullFile(data, convert, fmt).text, toFloat)
        == Reread(fmt, toFloat, Scaled(convert, FlippedValues(data).value))
  {
    if CorrectOrderFile(data, convert, fmt).Written? {
      PermOrPoroReadsBack(convert, fmt, toFloat, Scaled(convert, CorrectOrderValues(data).value));
    }
    if FullFile(data, convert, fmt).Written? {
      PermOrPoroReadsBack(convert, fmt, toFloat, Scaled(convert, FlippedValues(data).value));
    }
  }

  /** A written file of the inverted-Z converter reads back as the (scaled) flipped values. */
  lemma {:induction false} InvertedZReadsBack(data: Npy, keyword: string, convert: bool,
                                              fmt: real -> string, toFloat: string -> Option<real>)
    requires WellFormed(data) && TokenFormatter(fmt) && Readable(fmt, toFloat) && Keyword(keyword)
    requires InvertedZFile(data, keyword, convert, fmt).Written?
    ensures P.ReadPlainProperty(InvertedZFile(data, keyword, convert, fmt).text, toFloat)
         == Reread(fmt, toFloat, Scaled(convert, FlippedValues(data).value))
  {
    BlockReadsBack(keyword, fmt, toFloat, Scaled(convert, FlippedValues(data).value));
  }
}
