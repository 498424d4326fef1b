/**
  The `HeaderValue` name/value pair and its parser `lexical_cast`, which
  splits a `-H "<name>: <value>"` argument at the first `": "`.
*/
module Headers {
  import opened Wrappers

  /** A request header as a name/value pair. */
  datatype Header = Header(name: string, value: string)

  /** True when the two-character separator `": "` starts at index `i` of `s`. */
  predicate SeparatorAt(s: string, i: int)
  {
    0 <= i && i + 1 < |s| && s[i] == ':' && s[i + 1] == ' '
  }

  /** True when `s` contains the separator `": "` anywhere. */
  predicate ContainsSeparator(s: string)
  {
    exists i :: 0 <= i < |s| && SeparatorAt(s, i)
  }

  /** The header as it is written on the command line: `name + ": " + value`. */
  function Format(h: Header): string
  {
    h.name + ": " + h.value
  }

  /** The first index at or after `from` where the separator starts, if any. */
  function FindSeparatorFrom(s: string, from: nat): (r: Option<nat>)
    requires from <= |s|
    decreases |s| - from
    ensures r.Some? ==> from <= r.value && SeparatorAt(s, r.value)
    ensures forall j :: from <= j && (r.None? || j < r.value) ==> !SeparatorAt(s, j)
  {
    if from + 1 >= |s| then None
    else if s[from] == ':' && s[from + 1] == ' ' then Some(from)
    else FindSeparatorFrom(s, from + 1)
  }

  /** `input.find(": ")`: the index of the first separator, `None` standing for `npos`. */
  function FindSeparator(s: string): (r: Option<nat>)
    ensures r.None? <==> !ContainsSeparator(s)
    ensures r.Some? ==> SeparatorAt(s, r.value)
    ensures r.Some? ==> forall j :: 0 <= j < r.value ==> !SeparatorAt(s, j)
  {
    FindSeparatorFrom(s, 0)
  }

  /** What `lexical_cast` reports: whether it succeeded, and the pair after the call. */
  datatype CastResult = CastResult(ok: bool, header: Header)

  /**
    `lexical_cast(input, headerValue)`: on success the pair holds the text
    before the first `": "` and the text after it; on failure the pair it
    was given comes back untouched.
  */
  function LexicalCast(input: string, header: Header): (r: CastResult)
    ensures r.ok <==> ContainsSeparator(input) && !SeparatorAt(input, 0)
    ensures !r.ok ==> r.header == header
    ensures r.ok ==> r.header.name != [] && !ContainsSeparator(r.header.name)
    ensures r.ok ==> Format(r.header) == input
  {
    match FindSeparator(input)
    case None => CastResult(false, header)
    case Some(i) =>
      if i == 0 then CastResult(false, header)
      else
        var h := Header(input[..i], input[i + 2..]);
        assert !ContainsSeparator(h.name) by {
          forall j | 0 <= j < |h.name| ensures !SeparatorAt(h.name, j) {
            assert SeparatorAt(h.name, j) ==> SeparatorAt(input, j);
          }
        }
        assert Format(h) == input[..i] + input[i..i + 2] + input[i + 2..];
        assert input == input[..i] + input[i..i + 2] + input[i + 2..];
        CastResult(true, h)
  }

  /**
    Writing a header with a non-empty, separator-free name and parsing it
    back gives the same header, whatever the value and whatever pair the
    parse starts from.
  */
  lemma {:induction false} FormatThenParse(h: Header, prior: Header)
    requires h.name != [] && !ContainsSeparator(h.name)
    ensures LexicalCast(Format(h), prior) == CastResult(true, h)
  {
    var s := Format(h);
    var n := |h.name|;
    assert SeparatorAt(s, n);
    forall j | 0 <= j < n ensures !SeparatorAt(s, j) {
      if j + 1 < n {
        assert SeparatorAt(s, j) ==> SeparatorAt(h.name, j);
      } else {
        assert s[j + 1] == ':';
      }
    }
    assert FindSeparator(s) == Some(n);
    assert s[..n] == h.name;
    assert s[n + 2..] == h.value;
  }

  /** A value may itself contain `": "`: only the first separator splits. */
  lemma ValueMayContainSeparator()
    ensures LexicalCast("a: b: c", Header("", "")) == CastResult(true, Header("a", "b: c"))
  {
  }

  /** An empty name and a missing separator are both refused. */
  lemma RejectedArguments(prior: Header)
    ensures LexicalCast(": v", prior) == CastResult(false, prior)
    ensures LexicalCast("Accept:text/plain", prior) == CastResult(false, prior)
  {
    assert SeparatorAt(": v", 0);
    var s := "Accept:text/plain";
    assert !ContainsSeparator(s) by {
      forall j | 0 <= j < |s| ensures !SeparatorAt(s, j) {
      }
    }
  }
}
