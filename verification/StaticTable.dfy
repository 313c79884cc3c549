/** The HPACK static table, Appendix A of RFC 7541, and the lookups built from it. */
module StaticTable {
  import opened Common

  datatype Field = Field(name: bytes, value: bytes)

  const STATIC_LENGTH: nat := 61

  function Ascii(s: string): (b: bytes)
    ensures |b| == |s|
  {
    seq(|s|, i requires 0 <= i < |s| => s[i] as int % 256)
  }

  predicate NoNul(s: string) {
    forall i :: 0 <= i < |s| ==> 0 < s[i] as int < 128
  }


  function Entries1To8(index: nat): (e: (string, string))
    requires 1 <= index <= 8
    ensures NoNul(e.0) && NoNul(e.1)
  {
    match index
    case 1 => (":authority", "")
    case 2 => (":method", "GET")
    case 3 => (":method", "POST")
    case 4 => (":path", "/")
    case 5 => (":path", "/index.html")
    case 6 => (":scheme", "http")
    case 7 => (":scheme", "https")
    case _ => (":status", "200")
  }

  function Entries9To16(index: nat): (e: (string, string))
    requires 9 <= index <= 16
    ensures NoNul(e.0) && NoNul(e.1)
  {
    match index
    case 9 => (":status", "204")
    case 10 => (":status", "206")
    case 11 => (":status", "304")
    case 12 => (":status", "400")
    case 13 => (":status", "404")
    case 14 => (":status", "500")
    case 15 => ("accept-charset", "")
    case _ => ("accept-encoding", "gzip, deflate")
  }

  function Entries17To24(index: nat): (e: (string, string))
    requires 17 <= index <= 24
    ensures NoNul(e.0) && NoNul(e.1)
  {
    match index
    case 17 => ("accept-language", "")
    case 18 => ("accept-ranges", "")
    case 19 => ("accept", "")
    case 20 => ("access-control-allow-origin", "")
    case 21 => ("age", "")
    case 22 => ("allow", "")
    case 23 => ("authorization", "")
    case _ => ("cache-control", "")
  }

  function Entries25To32(index: nat): (e: (string, string))
    requires 25 <= index <= 32
    ensures NoNul(e.0) && NoNul(e.1)
  {
    match index
    case 25 => ("content-disposition", "")
    case 26 => ("content-encoding", "")
    case 27 => ("content-language", "")
    case 28 => ("content-length", "")
    case 29 => ("content-location", "")
    case 30 => ("content-range", "")
    case 31 => ("content-type", "")
    case _ => ("cookie", "")
  }

  function Entries33To40(index: nat): (e: (string, string))
    requires 33 <= index <= 40
    ensures NoNul(e.0) && NoNul(e.1)
  {
    match index
    case 33 => ("date", "")
    case 34 => ("etag", "")
    case 35 => ("expect", "")
    case 36 => ("expires", "")
    case 37 => ("from", "")
    case 38 => ("host", "")
    case 39 => ("if-match", "")
    case _ => ("if-modified-since", "")
  }

  function Entries41To48(index: nat): (e: (string, string))
    requires 41 <= index <= 48
    ensures NoNul(e.0) && NoNul(e.1)
  {
    match index
    case 41 => ("if-none-match", "")
    case 42 => ("if-range", "")
    case 43 => ("if-unmodified-since", "")
    case 44 => ("last-modified", "")
    case 45 => ("link", "")
    case 46 => ("location", "")
    case 47 => ("max-forwards", "")
    case _ => ("proxy-authenticate", "")
  }

  function Entries49To56(index: nat): (e: (string, string))
    requires 49 <= index <= 56
    ensures NoNul(e.0) && NoNul(e.1)
  {
    match index
    case 49 => ("proxy-authorization", "")
    case 50 => ("range", "")
    case 51 => ("referer", "")
    case 52 => ("refresh", "")
    case 53 => ("retry-after", "")
    case 54 => ("server", "")
    case 55 => ("set-cookie", "")
    case _ => ("strict-transport-security", "")
  }

  function Entries57To61(index: nat): (e: (string, string))
    requires 57 <= index <= 61
    ensures NoNul(e.0) && NoNul(e.1)
  {
    match index
    case 57 => ("transfer-encoding", "")
    case 58 => ("user-agent", "")
    case 59 => ("vary", "")
    case 60 => ("via", "")
    case _ => ("www-authenticate", "")
  }

  /** Entry `index` (from 1) as text. */
  function StaticText(index: nat): (e: (string, string))
    requires 1 <= index <= STATIC_LENGTH
    ensures NoNul(e.0) && NoNul(e.1)
  {
    if index <= 8 then Entries1To8(index)
    else if index <= 16 then Entries9To16(index)
    else if index <= 24 then Entries17To24(index)
    else if index <= 32 then Entries25To32(index)
    else if index <= 40 then Entries33To40(index)
    else if index <= 48 then Entries41To48(index)
    else if index <= 56 then Entries49To56(index)
    else Entries57To61(index)
  }

  function StaticFields(): (table: seq<Field>)
    ensures |table| == STATIC_LENGTH
  {
    seq(STATIC_LENGTH, i requires 0 <= i < STATIC_LENGTH => Field(Ascii(StaticText(i + 1).0), Ascii(StaticText(i + 1).1)))
  }

  /** A table no entry of which has a NUL byte: what makes the joined pair keys unambiguous. */
  ghost predicate Plain(table: seq<Field>) {
    |table| <= STATIC_LENGTH && forall i :: 0 <= i < |table| ==> 0 !in table[i].name && 0 !in table[i].value
  }

  lemma StaticTablePlain()
    ensures Plain(StaticFields())
  {
    var table := StaticFields();
    forall i | 0 <= i < |table|
      ensures 0 !in table[i].name && 0 !in table[i].value
    {
      var e := StaticText(i + 1);
      AsciiNoNul(e.0);
      AsciiNoNul(e.1);
    }
  }

  lemma AsciiNoNul(s: string)
    requires NoNul(s)
    ensures 0 !in Ascii(s)
  {
  }

  // --- lookup maps ---

  /** The key under which the source files a name and value pair: joined by a NUL. */
  function PairKey(f: Field): (k: bytes) {
    f.name + [0] + f.value
  }

  /** The wire index of the last of the first `n` entries filed under `key`. */
  function LastPair(table: seq<Field>, key: bytes, n: nat): (index: Option<nat>)
    requires n <= |table|
    ensures index.Some? ==> 1 <= index.value <= n && PairKey(table[index.value - 1]) == key
    ensures index.None? ==> forall i :: 0 <= i < n ==> PairKey(table[i]) != key
  {
    if n == 0 then None
    else if PairKey(table[n - 1]) == key then Some(n)
    else LastPair(table, key, n - 1)
  }

  /** The wire index of the first of the first `n` entries with that name. */
  function FirstName(table: seq<Field>, name: bytes, n: nat): (index: Option<nat>)
    requires n <= |table|
    ensures index.Some? ==> 1 <= index.value <= n && table[index.value - 1].name == name
                            && forall i :: 0 <= i < index.value - 1 ==> table[i].name != name
    ensures index.None? ==> forall i :: 0 <= i < n ==> table[i].name != name
  {
    if n == 0 then None
    else match FirstName(table, name, n - 1)
      case Some(i) => Some(i)
      case None => if table[n - 1].name == name then Some(n) else None
  }

  ghost predicate IndexesNames(table: seq<Field>, n: nat, m: map<bytes, nat>)
    requires n <= |table|
  {
    forall name :: FirstName(table, name, n) == if name in m then Some(m[name]) else None
  }

  ghost predicate IndexesPairs(table: seq<Field>, n: nat, m: map<bytes, nat>)
    requires n <= |table|
  {
    forall key :: LastPair(table, key, n) == if key in m then Some(m[key]) else None
  }

  /** The two hash maps filled in one pass over the table. */
  method BuildMaps(table: seq<Field>) returns (nameToIndex: map<bytes, nat>, pairToIndex: map<bytes, nat>)
    ensures IndexesNames(table, |table|, nameToIndex)
    ensures IndexesPairs(table, |table|, pairToIndex)
  {
    nameToIndex, pairToIndex := map[], map[];
    for i := 0 to |table|
      invariant IndexesNames(table, i, nameToIndex)
      invariant IndexesPairs(table, i, pairToIndex)
    {
      var index := i + 1;
      if table[i].name !in nameToIndex {
        nameToIndex := nameToIndex[table[i].name := index];
      }
      pairToIndex := pairToIndex[PairKey(table[i]) := index];
    }
  }

  lemma NulAt(f: Field, j: nat)
    requires 0 !in f.name && 0 !in f.value && j < |PairKey(f)|
    ensures PairKey(f)[j] == 0 <==> j == |f.name|
  {
    var k := PairKey(f);
    if j < |f.name| {
      assert k[j] == f.name[j];
    } else if j > |f.name| {
      assert k[j] == f.value[j - |f.name| - 1];
    }
  }

  /**
   * The joined key never takes a header for a different static entry, even when
   * the header itself has NUL bytes.
   */
  lemma PairKeyUnambiguous(f: Field, g: Field)
    requires 0 !in f.name && 0 !in f.value && PairKey(f) == PairKey(g)
    ensures f == g
  {
    var k := PairKey(f);
    forall j | 0 <= j < |k| && k[j] == 0
      ensures j == |f.name|
    {
      NulAt(f, j);
    }
    assert k[|g.name|] == 0;
    assert f.name == k[..|f.name|] == g.name;
    assert f.value == k[|f.name| + 1..] == g.value;
  }
}
