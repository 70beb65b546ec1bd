/** The parts of the .NET platform the generator and the exporter call into, reduced to what
    they compute: optional values, exceptions, path joining, GUID text and number formatting. */
module Platform {
  import opened Strings

  datatype Option<T> = None | Some(value: T)

  /** A number parser (`double.TryParse`) that reads back every decimal numeral it is given. */
  ghost predicate ReadsNumerals(parse: string -> Option<real>) {
    forall n: nat :: parse(NatToString(n)) == Some(n as real)
  }

  /** The exceptions the modelled code can meet. `FileNotFound` is what `File.ReadAllText`
      throws for a missing template; `Raised` stands for any other exception, by its message. */
  datatype Fault = FileNotFound(path: string) | Raised(message: string)

  datatype Result<T> = Ok(value: T) | Err(fault: Fault)

  /** `Exception.Message`. */
  function Message(f: Fault): (m: string)
    ensures f.FileNotFound? ==> StartsWith(m, "Could not find file '")
    ensures f.Raised? ==> m == f.message
  {
    match f
    case FileNotFound(p) => "Could not find file '" + p + "'."
    case Raised(msg) => msg
  }

  predicate IsSeparator(c: char) {
    c == '\\' || c == '/'
  }

  /** `Path.IsPathRooted` on Windows: a leading separator or a drive letter. */
  predicate IsRooted(p: string) {
    (|p| >= 1 && IsSeparator(p[0])) || (|p| >= 2 && p[1] == ':')
  }

  /** `Path.Combine(a, b)` on Windows. */
  function Combine(a: string, b: string): (r: string)
    ensures IsRooted(b) || a == [] ==> r == b
    ensures b == [] ==> r == a
    ensures !IsRooted(b) && a != [] ==> StartsWith(r, a) && |r| >= |a| + |b| && r[|r| - |b|..] == b
  {
    if IsRooted(b) || a == [] then b
    else if b == [] then a
    else if IsSeparator(a[|a| - 1]) || a[|a| - 1] == ':' then a + b
    else a + "\\" + b
  }

  predicate IsLowerHex(c: char) {
    '0' <= c <= '9' || 'a' <= c <= 'f'
  }

  /** The 128 bits of a `Guid`, as the 32 lower-case hex digits `ToString("N")` prints. */
  type Guid = s: string | |s| == 32 && forall i :: 0 <= i < |s| ==> IsLowerHex(s[i])
    witness "00000000000000000000000000000000"

  /** `Guid.ToString()` (format "D"): 8-4-4-4-12 digits separated by hyphens. */
  function FormatD(g: Guid): (r: string)
    ensures |r| == 36
    ensures r[8] == '-' && r[13] == '-' && r[18] == '-' && r[23] == '-'
    ensures forall i :: 0 <= i < 36 && i != 8 && i != 13 && i != 18 && i != 23 ==> IsLowerHex(r[i])
  {
    g[..8] + "-" + g[8..12] + "-" + g[12..16] + "-" + g[16..20] + "-" + g[20..]
  }

  /** `double.ToString()` and `double.ToString("F2")` under the current culture; their digits
      are not modelled, only that the same number always prints the same way. */
  datatype Formatter = Formatter(general: real -> string, fixed2: real -> string)
}
