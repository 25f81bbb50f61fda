/** The value types of `cgdraw_core` that the batching core moves around: colours and vertices. */
module CoreTypes {
  import opened Base
  import opened Matrices

  /** The named colours of `cgdraw_core::color::Color`. */
  datatype Color =
    | WHITE | BLACK | RED | GREEN | BLUE | YELLOW | CYAN | MAGENTA | ORANGE
    | PINK | GRAY | GOLD | SILVER | LIME | MAROON | PURPLE | VIOLET | BEIGE
    | BROWN | DARKBLUE | DARKGREEN | DARKPURPLE | DARKBROWN | LIGHTGRAY
    | DARKGRAY | SKYBLUE

  /** The three bytes `SrgbColor::from_raw` is given. */
  datatype RawRgb = RawRgb(r: u8, g: u8, b: u8)

  /** The three channels `Color::to_vector` produces, each a byte scaled into [0, 1]. */
  datatype ColorVector = Rgb(r: real, g: real, b: real)

  /** `Color::get_srgb`: the byte triple of each named colour. */
  function GetSrgb(c: Color): RawRgb
  {
    match c
    case WHITE => RawRgb(255, 255, 255)
    case BLACK => RawRgb(0, 0, 0)
    case RED => RawRgb(255, 0, 0)
    case GREEN => RawRgb(0, 255, 0)
    case BLUE => RawRgb(0, 0, 255)
    case YELLOW => RawRgb(255, 255, 0)
    case CYAN => RawRgb(0, 255, 255)
    case MAGENTA => RawRgb(255, 0, 255)
    case ORANGE => RawRgb(255, 128, 0)
    case PINK => RawRgb(255, 192, 203)
    case GRAY => RawRgb(128, 128, 128)
    case GOLD => RawRgb(255, 215, 0)
    case SILVER => RawRgb(192, 192, 192)
    case LIME => RawRgb(0, 255, 0)
    case MAROON => RawRgb(128, 0, 0)
    case PURPLE => RawRgb(128, 0, 128)
    case VIOLET => RawRgb(128, 0, 128)
    case BEIGE => RawRgb(245, 245, 220)
    case BROWN => RawRgb(165, 42, 42)
    case DARKBLUE => RawRgb(0, 0, 139)
    case DARKGREEN => RawRgb(0, 100, 0)
    case DARKPURPLE => RawRgb(139, 0, 139)
    case DARKBROWN => RawRgb(101, 67, 33)
    case LIGHTGRAY => RawRgb(211, 211, 211)
    case DARKGRAY => RawRgb(169, 169, 169)
    case SKYBLUE => RawRgb(135, 206, 235)
  }

  /** `SrgbColor::from_raw`: each byte divided by 255, so every channel lies in [0, 1] and scales back to its byte. */
  function FromRaw(raw: RawRgb): (v: ColorVector)
    ensures 0.0 <= v.r <= 1.0 && 0.0 <= v.g <= 1.0 && 0.0 <= v.b <= 1.0
    ensures v.r * 255.0 == raw.r as real && v.g * 255.0 == raw.g as real && v.b * 255.0 == raw.b as real
  {
    Rgb(raw.r as real / 255.0, raw.g as real / 255.0, raw.b as real / 255.0)
  }

  /** `Color::to_vector`: the channels of the colour's byte triple. */
  function ToVector(c: Color): ColorVector
  {
    FromRaw(GetSrgb(c))
  }

  /** Two colours give the same vector exactly when the table gives them the same bytes. */
  lemma ToVectorFollowsTable(a: Color, b: Color)
    ensures ToVector(a) == ToVector(b) <==> GetSrgb(a) == GetSrgb(b)
  {
    if ToVector(a) == ToVector(b) {
      var va, vb := ToVector(a), ToVector(b);
      assert GetSrgb(a).r as real == va.r * 255.0 == GetSrgb(b).r as real;
      assert GetSrgb(a).g as real == va.g * 255.0 == GetSrgb(b).g as real;
      assert GetSrgb(a).b as real == va.b * 255.0 == GetSrgb(b).b as real;
    }
  }

  /** The table names two colours twice: GREEN is LIME and PURPLE is VIOLET. */
  lemma SynonymColours()
    ensures ToVector(GREEN) == ToVector(LIME)
    ensures ToVector(PURPLE) == ToVector(VIOLET)
    ensures ToVector(GREEN) != ToVector(DARKGREEN)
  {
    ToVectorFollowsTable(GREEN, DARKGREEN);
  }

  /** `Vertex { position, color }`, as uploaded to the vertex buffer. */
  datatype Vertex = Vertex(position: Point, color: ColorVector)

  /** The vertex emitted for the local point `p` under `transform`, in colour `c`. */
  function Emit(transform: Matrix, c: ColorVector, p: Vec3): (v: Vertex)
    ensures v.color == c
  {
    Vertex(Apply(transform, At(p.x, p.y, p.z)), c)
  }

  /** The vertices emitted, in order, for the local points `ps`. */
  function EmitAll(transform: Matrix, c: ColorVector, ps: seq<Vec3>): (vs: seq<Vertex>)
    ensures |vs| == |ps|
    ensures forall i :: 0 <= i < |ps| ==> vs[i] == Emit(transform, c, ps[i])
  {
    if ps == [] then [] else [Emit(transform, c, ps[0])] + EmitAll(transform, c, ps[1..])
  }

  /** Emitting a non-empty point list emits its head first. */
  lemma EmitAllCons(transform: Matrix, c: ColorVector, ps: seq<Vec3>)
    requires ps != []
    ensures EmitAll(transform, c, ps) == [Emit(transform, c, ps[0])] + EmitAll(transform, c, ps[1..])
  {
  }
}
