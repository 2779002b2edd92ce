/** What several modules share. */
module Common {

  datatype Option<+T> = None | Some(value: T)

  /** A path as its list of segments (see module Uri for the string form). */
  type Path = seq<string>

  /** A cable address: the paths of its input and output plug. */
  datatype Address = Address(input: Path, output: Path)

  /** The number of values of the unsigned size type. */
  const SIZE_T := 0x1_0000_0000_0000_0000

  ghost predicate Distinct<T>(s: seq<T>) { forall i, j {:trigger s[i], s[j]} :: 0 <= i < j < |s| ==> s[i] != s[j] }
}
