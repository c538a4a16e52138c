/** Values shared by every part of the recorder: optional values, the three kinds of
    exception the core raises, outcomes of operations that may raise, and the two
    string helpers it uses (`os.path.join` and `str.join`). */
module Common {

  datatype Option<+T> = None | Some(value: T)

  /** The Python exceptions raised by the core, with their message text. */
  datatype Error = ValueError(message: string) | RuntimeError(message: string) | AttributeError(message: string)

  /** A call that returns nothing or raises. */
  datatype Outcome = Pass | Fail(error: Error)

  /** A call that returns a value or raises. */
  datatype Result<+T> = Success(value: T) | Failure(error: Error)

  predicate IsAbsolute(path: string) {
    |path| > 0 && path[0] == '/'
  }

  /** POSIX `os.path.join(a, b)`: an absolute `b` replaces `a`; otherwise `b` is
      appended, with a '/' unless `a` is empty or already ends in one. */
  function PathJoin(a: string, b: string): string {
    if IsAbsolute(b) then b
    else if a == "" || a[|a| - 1] == '/' then a + b
    else a + "/" + b
  }

  /** The joined path ends with the file name; for a relative file name it starts
      with the directory and puts exactly one '/' between them when the directory
      does not already end in one. */
  lemma PathJoinParts(a: string, b: string)
    ensures var r := PathJoin(a, b);
      && |b| <= |r| && r[|r| - |b|..] == b
      && (IsAbsolute(b) ==> r == b)
      && (!IsAbsolute(b) ==> |a| <= |r| && r[..|a|] == a)
      && (!IsAbsolute(b) && a != "" && a[|a| - 1] != '/' ==> |r| == |a| + 1 + |b| && r[|a|] == '/')
  {
  }

  /** Python's `sep.join(parts)`. */
  function Join(parts: seq<string>, sep: string): string {
    if parts == [] then ""
    else if |parts| == 1 then parts[0]
    else parts[0] + sep + Join(parts[1..], sep)
  }

  /** Python's `repr` of a list of strings, for strings without quotes, backslashes or
      non-printable characters. */
  function ListRepr(items: seq<string>): string {
    "[" + Join(Quoted(items), ", ") + "]"
  }

  function Quoted(items: seq<string>): seq<string> {
    seq(|items|, i requires 0 <= i < |items| => "'" + items[i] + "'")
  }
}
