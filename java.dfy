/** The Java vocabulary the modelled classes share: nullable results,
    exceptions, values of a Solr NamedList, a mutable String-to-String map,
    and the two string helpers the source calls (String.startsWith and
    commons-lang WordUtils.uncapitalize). */
module Java {

  /** A Java reference that may be null. */
  datatype Option<+T> = None | Some(value: T)

  /** The exceptions the modelled code raises, with the message it gives. */
  datatype Exception =
    | IllegalArgument(message: string)
    | IllegalState(message: string)
    | UnsupportedOperation(message: string)
    | NullPointer
    | ClassCast
    | IO(message: string)   // java.io.IOException

  /** How a Java call completes: normally with a value, or by throwing. */
  datatype Outcome<+T> = Normal(value: T) | Thrown(exception: Exception)

  /** A value held in a Solr NamedList: a string, a number, a boolean,
      null, or a nested NamedList (an ordered list that may repeat names). */
  datatype Value =
    | Str(s: string)
    | Int(i: int)
    | Bool(b: bool)
    | Null
    | List(entries: seq<(string, Value)>)

  /** `m.get(k)` on a java.util.Map. */
  function Get<K, V>(m: map<K, V>, k: K): (r: Option<V>)
    ensures r.Some? <==> k in m
    ensures r.Some? ==> r.value == m[k]
  {
    if k in m then Some(m[k]) else None
  }

  /** `s.startsWith(prefix)`. */
  predicate StartsWith(s: string, prefix: string) {
    |prefix| <= |s| && s[..|prefix|] == prefix
  }

  /** `Character.toLowerCase` on the ASCII letters; every other character
      is returned unchanged. */
  function ToLower(c: char): (r: char)
    ensures 'A' <= c <= 'Z' ==> 'a' <= r <= 'z' && r as int - c as int == 32
    ensures !('A' <= c <= 'Z') ==> r == c
  {
    if 'A' <= c <= 'Z' then (c as int + 32) as char else c
  }

  /** `Character.isWhitespace`: the Unicode space, line and paragraph
      separators other than the three no-break spaces, plus the ASCII
      controls TAB, LF, VT, FF, CR and FS, GS, RS, US. */
  predicate IsWhitespace(c: char) {
    var v := c as int;
    || (0x09 <= v <= 0x0D) || (0x1C <= v <= 0x20)
    || v == 0x1680 || (0x2000 <= v <= 0x200A && v != 0x2007)
    || v == 0x2028 || v == 0x2029 || v == 0x205F || v == 0x3000
  }

  /** commons-lang `WordUtils.uncapitalize(s)`: the first character of
      every whitespace-separated word is lower-cased, nothing else changes. */
  function Uncapitalize(s: string): (r: string)
    ensures |r| == |s|
  {
    seq(|s|, i requires 0 <= i < |s| => if i == 0 || IsWhitespace(s[i - 1]) then ToLower(s[i]) else s[i])
  }

  /** Only word starts change: the first character and every character
      after whitespace are lower-cased, and a character after a
      non-whitespace one is kept; a single word only has its first
      character lower-cased. */
  lemma UncapitalizeSpec(s: string)
    ensures |s| > 0 ==> Uncapitalize(s)[0] == ToLower(s[0])
    ensures forall i :: 0 < i < |s| && IsWhitespace(s[i - 1]) ==> Uncapitalize(s)[i] == ToLower(s[i])
    ensures forall i :: 0 < i < |s| && !IsWhitespace(s[i - 1]) ==> Uncapitalize(s)[i] == s[i]
    ensures (forall i :: 0 <= i < |s| ==> !IsWhitespace(s[i])) && |s| > 0 ==> Uncapitalize(s) == [ToLower(s[0])] + s[1..]
  {
    if (forall i :: 0 <= i < |s| ==> !IsWhitespace(s[i])) && |s| > 0 {
      var expected := [ToLower(s[0])] + s[1..];
      forall i | 0 < i < |s| ensures Uncapitalize(s)[i] == expected[i] {
        assert !IsWhitespace(s[i - 1]);
      }
    }
  }

  /** A mutable `java.util.Map<String, String>` (a HashMap in every caller):
      the argument maps that Solr hands to factories and that the factories
      rewrite in place. */
  class ArgMap {
    var entries: map<string, string>

    constructor (entries: map<string, string>)
      ensures this.entries == entries
    {
      this.entries := entries;
    }

    /** `get(key)`. */
    method Get(key: string) returns (v: Option<string>)
      ensures v.Some? <==> key in entries
      ensures v.Some? ==> v.value == entries[key]
    {
      v := if key in entries then Some(entries[key]) else None;
    }

    /** `put(key, value)`. */
    method Put(key: string, value: string)
      modifies this
      ensures entries == old(entries)[key := value]
    {
      entries := entries[key := value];
    }

    /** `remove(key)`: returns the removed value, or null when absent. */
    method Remove(key: string) returns (v: Option<string>)
      modifies this
      ensures v.Some? <==> key in old(entries)
      ensures v.Some? ==> v.value == old(entries)[key]
      ensures entries == old(entries) - {key}
    {
      v := if key in entries then Some(entries[key]) else None;
      entries := entries - {key};
    }
  }
}
