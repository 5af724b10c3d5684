/** The slice of the Android platform the codelab's activities touch: nullable
    values, the configuration handed to an activity, the layout manager of a
    list, the saved-instance bundle and Kotlin's 32-bit Int arithmetic. */
module Platform {

  /** A Kotlin nullable value: None stands for null (or, for a LiveData, no value yet). */
  datatype Option<T> = None | Some(value: T)

  /** Configuration.orientation. */
  datatype Orientation = Portrait | Landscape | Undefined

  /** The fields of a Configuration that the activities read. */
  datatype Configuration = Configuration(orientation: Orientation, screenWidthDp: int, screenHeightDp: int)

  /** `config.orientation == Configuration.ORIENTATION_LANDSCAPE` */
  predicate IsLandscape(config: Configuration) {
    config.orientation == Landscape
  }

  /** The layout manager a RecyclerView is given: a vertical LinearLayoutManager,
      a horizontal one, or a GridLayoutManager with a span count. */
  datatype Arrangement = LinearVertical | LinearHorizontal | Grid(span: nat)

  /** The layout managers of the two lists on the screen. */
  datatype ListArrangement = ListArrangement(reviews: Arrangement, suggestions: Arrangement)

  /** Bundle.getBoolean: the stored value, or false when the key is absent. */
  function GetBoolean(entries: map<string, bool>, key: string): (r: bool)
    ensures r ==> key in entries
    ensures key in entries ==> r == entries[key]
  {
    if key in entries then entries[key] else false
  }

  /** A Bundle, reduced to its boolean entries. */
  class Bundle {
    var entries: map<string, bool>

    constructor (initial: map<string, bool>)
      ensures entries == initial
    {
      entries := initial;
    }

    /** Bundle.putBoolean: stores the value under the key, overwriting it. */
    method PutBoolean(key: string, value: bool)
      modifies this
      ensures entries == old(entries)[key := value]
      ensures GetBoolean(entries, key) == value
    {
      entries := entries[key := value];
    }
  }

  /** The saved bundle's entries, or None when there is no bundle. */
  function EntriesOf(bundle: Bundle?): (r: Option<map<string, bool>>)
    reads bundle
    ensures r.Some? <==> bundle != null
    ensures bundle != null ==> r == Some(bundle.entries)
  {
    if bundle == null then None else Some(bundle.entries)
  }

  /** The range of a Kotlin Int. */
  predicate IsInt(n: int) {
    -0x8000_0000 <= n < 0x8000_0000
  }

  /** Kotlin's `n / 2` on Int: the quotient truncated toward zero (Dafny's `/`
      rounds toward negative infinity for a negative dividend). */
  function Half(n: int): (h: int)
    ensures 0 <= n ==> 0 <= h && 2 * h <= n <= 2 * h + 1
    ensures n < 0 ==> h <= 0 && 2 * h - 1 <= n <= 2 * h
    ensures IsInt(n) ==> IsInt(h)
  {
    if n >= 0 then n / 2 else -((-n) / 2)
  }
}
