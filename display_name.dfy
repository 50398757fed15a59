/**
 * The display name of a recordset (`_compute_name`): the backend's name and
 * `#<id>`, empty parts dropped, joined with single spaces.
 */
module DisplayNames {
  import opened Wrappers

  /** The decimal digits of `n`, as `str(n)` writes them. */
  function Decimal(n: nat): (s: string)
    ensures |s| > 0
    ensures forall i :: 0 <= i < |s| ==> '0' <= s[i] <= '9'
    ensures s[0] == '0' ==> n == 0
  {
    if n < 10 then [Digit(n)] else Decimal(n / 10) + [Digit(n % 10)]
  }

  function Digit(d: nat): (c: char)
    requires d < 10
    ensures '0' <= c <= '9' && c as int - '0' as int == d
  {
    (d + '0' as int) as char
  }

  /** Reads a non-empty string of decimal digits back as a number. */
  function ParseDecimal(s: string): Option<nat> {
    if s == [] || !('0' <= s[|s| - 1] <= '9') then None
    else
      var d := s[|s| - 1] as int - '0' as int;
      if |s| == 1 then Some(d)
      else
        match ParseDecimal(s[..|s| - 1])
        case None => None
        case Some(high) => Some(high * 10 + d)
  }

  /** `str(id)` loses nothing: parsing it gives the id back. */
  lemma {:induction false} DecimalRoundTrip(n: nat)
    ensures ParseDecimal(Decimal(n)) == Some(n)
  {
    var s := Decimal(n);
    if n >= 10 {
      DecimalRoundTrip(n / 10);
      assert s[..|s| - 1] == Decimal(n / 10);
    }
  }

  /** `filter(None, parts)`: the non-empty parts, in order. */
  function NonEmpty(parts: seq<string>): (r: seq<string>)
    ensures |r| <= |parts|
    ensures forall i :: 0 <= i < |r| ==> r[i] != ""
    ensures forall x :: x in r <==> x in parts && x != ""
    ensures (forall i :: 0 <= i < |parts| ==> parts[i] != "") ==> r == parts
  {
    if parts == [] then []
    else if parts[0] == "" then NonEmpty(parts[1..])
    else [parts[0]] + NonEmpty(parts[1..])
  }

  /** Filtering distributes over concatenation: order and repeats are kept. */
  lemma {:induction false} NonEmptyAppend(a: seq<string>, b: seq<string>)
    ensures NonEmpty(a + b) == NonEmpty(a) + NonEmpty(b)
  {
    if a != [] {
      assert (a + b)[1..] == a[1..] + b;
      NonEmptyAppend(a[1..], b);
    } else {
      assert a + b == b;
    }
  }

  /** `sep.join(parts)`. */
  function Join(parts: seq<string>, sep: string): (r: string)
    ensures parts == [] ==> r == ""
    ensures |parts| == 1 ==> r == parts[0]
    ensures |parts| > 0 ==> parts[0] <= r
    ensures |parts| > 0 ==> |parts[|parts| - 1]| <= |r| && r[|r| - |parts[|parts| - 1]|..] == parts[|parts| - 1]
  {
    if parts == [] then ""
    else if |parts| == 1 then parts[0]
    else
      var head := parts[0] + sep;
      var rest := Join(parts[1..], sep);
      assert (head + rest)[|head|..] == rest;
      head + rest
  }

  /** Joining two non-empty lists of parts puts one separator between them. */
  lemma {:induction false} JoinAppend(a: seq<string>, b: seq<string>, sep: string)
    requires a != [] && b != []
    ensures Join(a + b, sep) == Join(a, sep) + sep + Join(b, sep)
  {
    var ab := a + b;
    assert |ab| > 1 && ab[0] == a[0];
    if |a| == 1 {
      assert ab[1..] == b;
      assert Join(ab, sep) == a[0] + sep + Join(b, sep);
    } else {
      assert ab[1..] == a[1..] + b;
      JoinAppend(a[1..], b, sep);
      assert Join(ab, sep) == a[0] + sep + (Join(a[1..], sep) + sep + Join(b, sep));
      assert Join(a, sep) == a[0] + sep + Join(a[1..], sep);
    }
  }

  /**
   * The name of recordset `id` under a backend whose name is `backendName`;
   * `None` and an empty name (both false in Python) are dropped alike.
   */
  function DisplayName(backendName: Option<string>, id: nat): (r: string)
    ensures var name := backendName.GetOr("");
      r == (if name == "" then "" else name + " ") + "#" + Decimal(id)
  {
    var name := backendName.GetOr("");
    var tag := "#" + Decimal(id);
    var parts := [name, tag];
    assert parts[1..] == [tag];
    if name == "" then
      assert NonEmpty(parts) == [tag];
      Join(NonEmpty(parts), " ")
    else
      assert NonEmpty(parts) == parts;
      assert Join(parts, " ") == name + " " + Join([tag], " ");
      Join(NonEmpty(parts), " ")
  }

  /** Two recordsets under the same backend never share a name. */
  lemma DisplayNameDeterminesId(backendName: Option<string>, a: nat, b: nat)
    requires DisplayName(backendName, a) == DisplayName(backendName, b)
    ensures a == b
  {
    var name := backendName.GetOr("");
    var head := (if name == "" then "" else name + " ") + "#";
    assert DisplayName(backendName, a) == head + Decimal(a);
    assert Decimal(a) == DisplayName(backendName, a)[|head|..];
    assert Decimal(b) == DisplayName(backendName, b)[|head|..];
    DecimalRoundTrip(a);
    DecimalRoundTrip(b);
  }
}
