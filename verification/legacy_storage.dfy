/**
 * The original package-level store: a random short-ID generator over a
 * 62-symbol alphabet and one global code-to-URL map.  The package's map and
 * its random source become one object; the random source is an oracle: the
 * sequence of indices it draws, each below the alphabet's size.
 */
module LegacyStorage {
  import opened StorageTypes
  import opened UrlMapOps

  const Lowercase: string := "abcdefghijklmnopqrstuvwxyz"
  const Uppercase: string := "ABCDEFGHIJKLMNOPQRSTUVWXYZ"
  const Digits: string := "0123456789"

  /** The alphabet of generated identifiers, written as its three ranges. */
  const Charset: string := Lowercase + Uppercase + Digits

  /** One draw of the random source: an index into `Charset`. */
  type CharIndex = i: int | 0 <= i < 62

  /** Length of the codes `MakeShort` hands out. */
  const CodeLength: nat := 8

  predicate IsAlphanumeric(c: char)
  {
    'a' <= c <= 'z' || 'A' <= c <= 'Z' || '0' <= c <= '9'
  }

  /** A string of the given length over the alphabet. */
  predicate IsId(s: string, n: nat)
  {
    |s| == n && forall k :: 0 <= k < |s| ==> s[k] in Charset
  }

  /** The symbol the alphabet holds at position `i`, computed from its three ranges. */
  function AlphabetAt(i: CharIndex): char
  {
    if i < 26 then ('a' as int + i) as char
    else if i < 52 then ('A' as int + (i - 26)) as char
    else ('0' as int + (i - 52)) as char
  }

  lemma CharsetLayout()
    ensures |Charset| == 62
    ensures forall i: CharIndex :: Charset[i] == AlphabetAt(i)
  {
    assert forall i :: 0 <= i < 26 ==> Lowercase[i] == ('a' as int + i) as char;
    assert forall i :: 0 <= i < 26 ==> Uppercase[i] == ('A' as int + i) as char;
    assert forall i :: 0 <= i < 10 ==> Digits[i] == ('0' as int + i) as char;
  }

  /** The alphabet is a-z, A-Z, 0-9: 62 distinct alphanumeric symbols. */
  lemma CharsetIsAlphanumeric()
    ensures |Charset| == 62
    ensures forall i, j :: 0 <= i < j < |Charset| ==> Charset[i] != Charset[j]
    ensures forall c :: c in Charset <==> IsAlphanumeric(c)
  {
    CharsetLayout();
    LayoutIsAlphanumeric(Charset);
  }

  /** Any string laid out as `AlphabetAt` says has the three properties. */
  lemma LayoutIsAlphanumeric(s: string)
    requires |s| == 62 && forall i: CharIndex :: s[i] == AlphabetAt(i)
    ensures forall i, j :: 0 <= i < j < |s| ==> s[i] != s[j]
    ensures forall c :: c in s <==> IsAlphanumeric(c)
  {
    forall i, j | 0 <= i < j < |s| ensures s[i] != s[j] {
      assert s[i] == AlphabetAt(i) && s[j] == AlphabetAt(j);
    }
    forall c | c in s ensures IsAlphanumeric(c) {
      var i :| 0 <= i < |s| && s[i] == c;
      assert c == AlphabetAt(i);
    }
    forall c | IsAlphanumeric(c) ensures c in s {
      var i: CharIndex := if 'a' <= c <= 'z' then c as int - 'a' as int
                          else if 'A' <= c <= 'Z' then c as int - 'A' as int + 26
                          else c as int - '0' as int + 52;
      assert s[i] == c;
    }
  }

  /**
   * Fills an n-byte buffer with one random symbol per position: the k-th
   * symbol is the alphabet's symbol at the k-th draw.
   */
  method GenerateID(n: nat, draws: seq<CharIndex>) returns (id: string)
    requires n <= |draws|
    ensures |id| == n
    ensures forall k :: 0 <= k < n ==> id[k] == Charset[draws[k]]
    ensures IsId(id, n)
  {
    var b := new char[n];
    for i := 0 to n
      invariant forall k :: 0 <= k < i ==> b[k] == Charset[draws[k]]
    {
      b[i] := Charset[draws[i]];
    }
    id := b[..];
  }

  /** The package-level map `urlStorage` and the functions over it. */
  class GlobalStore {
    var urlStorage: UrlMap

    constructor ()
      ensures urlStorage == map[]
    {
      urlStorage := map[];
    }

    /** Reads the map: the stored URL and true, or "" and false when absent. */
    function GetURL(id: string): (r: (string, bool))
      reads this
      ensures r.1 <==> id in urlStorage
      ensures r.1 ==> r.0 == urlStorage[id]
      ensures !r.1 ==> r.0 == ""
    {
      Lookup(urlStorage, id)
    }

    /**
     * Draws an 8-symbol code and stores the URL under it.  There is no
     * collision check: whatever the code held before is overwritten.
     */
    method MakeShort(url: string, draws: seq<CharIndex>) returns (id: string)
      requires CodeLength <= |draws|
      modifies this
      ensures IsId(id, CodeLength)
      ensures forall k :: 0 <= k < CodeLength ==> id[k] == Charset[draws[k]]
      ensures urlStorage == old(urlStorage)[id := url]
      ensures GetURL(id) == (url, true)
      ensures forall k :: k != id ==> GetURL(k) == old(GetURL(k))
    {
      id := GenerateID(CodeLength, draws);
      urlStorage := urlStorage[id := url];
    }

    /** Stores the URL under the given code, unconditionally. */
    method ForceSet(id: string, url: string)
      modifies this
      ensures urlStorage == old(urlStorage)[id := url]
      ensures GetURL(id) == (url, true)
      ensures forall k :: k != id ==> GetURL(k) == old(GetURL(k))
    {
      urlStorage := urlStorage[id := url];
    }
  }
}
