/** The export file chooser's filter and the parsing of the configured export options. */
module ExportFilter {
  import opened Wrappers
  import opened Strings

  /** ExportFilter.Extensions, in declaration order. */
  datatype Extension = CSV | HTML

  function ExtensionName(e: Extension): (name: string)
  {
    match e
    case CSV => "csv"
    case HTML => "html"
  }

  const Extensions: seq<Extension> := [CSV, HTML]

  /** String.lastIndexOf(c): the last index holding `c`, or -1. */
  function LastIndexOf(s: string, c: char): (r: int)
    ensures -1 <= r < |s|
    ensures r >= 0 ==> s[r] == c
    ensures forall i :: r < i < |s| ==> s[i] != c
  {
    if s == [] then -1
    else if s[|s| - 1] == c then |s| - 1
    else LastIndexOf(s[..|s| - 1], c)
  }

  /**
   * getExtension on a file name (None for a null file): the text after the
   * last dot, lower-cased; the whole name when there is no dot.
   */
  function GetExtension(fileName: Option<string>): (r: Option<string>)
    ensures r.None? <==> fileName.None?
  {
    match fileName
    case None => None
    case Some(name) => Some(Lower(name[LastIndexOf(name, '.') + 1..]))
  }

  /** The extension is what follows the last dot, so it has no dot, and the name ends with it. */
  lemma GetExtensionSpec(name: string)
    ensures var e := GetExtension(Some(name)).value;
      '.' !in e && |e| <= |name| && Lower(name[|name| - |e|..]) == e
    ensures var e := GetExtension(Some(name)).value;
      |e| < |name| ==> name[|name| - |e| - 1] == '.'
  {
  }

  /** A name built as base + "." + ext has ext, lower-cased, as its extension. */
  lemma ExtensionOfJoined(base: string, ext: string)
    requires '.' !in ext
    ensures GetExtension(Some(base + "." + ext)) == Some(Lower(ext))
  {
    var name := base + "." + ext;
    var k := LastIndexOf(name, '.');
    assert name[|base|] == '.';
    assert k == |base|;
    assert name[k + 1..] == ext;
  }

  /** The extension check as a value: equal to one of the extensions, ignoring case. */
  predicate ValidExtension(option: string)
  {
    exists i :: 0 <= i < |Extensions| && EqualsIgnoreCase(ExtensionName(Extensions[i]), option)
  }

  /** isValidExtension: search the extensions in order. */
  method IsValidExtension(option: string) returns (valid: bool)
    ensures valid <==> ValidExtension(option)
  {
    var extensions := Extensions;
    var i := 0;
    while i < |extensions|
      invariant 0 <= i <= |extensions|
      invariant forall j :: 0 <= j < i ==> !EqualsIgnoreCase(ExtensionName(extensions[j]), option)
    {
      if EqualsIgnoreCase(ExtensionName(extensions[i]), option) {
        return true;
      }
      i := i + 1;
    }
    return false;
  }

  /** Exactly "csv" and "html" are valid, in any letter case. */
  lemma ValidExtensionIff(option: string)
    ensures ValidExtension(option) <==> Lower(option) == "csv" || Lower(option) == "html"
  {
    assert Lower("csv") == "csv" && Lower("html") == "html";
    if Lower(option) == "csv" {
      assert EqualsIgnoreCase(ExtensionName(Extensions[0]), option);
    }
    if Lower(option) == "html" {
      assert EqualsIgnoreCase(ExtensionName(Extensions[1]), option);
    }
  }

  /** accept: directories always; a file iff its extension is valid. */
  function Accept(isDirectory: bool, fileName: string): (accepted: bool)
  {
    if isDirectory then true
    else
      var extension := GetExtension(Some(fileName));
      extension.Some? && ValidExtension(extension.value)
  }

  /** A file is accepted iff the text after its last dot is csv or html, ignoring case. */
  lemma AcceptSpec(base: string, ext: string)
    requires '.' !in ext
    ensures Accept(false, base + "." + ext) <==> Lower(ext) == "csv" || Lower(ext) == "html"
  {
    ExtensionOfJoined(base, ext);
    ValidExtensionIff(Lower(ext));
    LowerIdempotent(ext);
  }

  lemma {:induction false} LowerIdempotent(s: string)
    ensures Lower(Lower(s)) == Lower(s)
  {
    if s != [] {
      LowerIdempotent(s[1..]);
      assert Lower(s)[1..] == Lower(s[1..]);
    }
  }

  /** getExportOptions: the comma tokens, in order, empty ones dropped. */
  method GetExportOptions(optionsStr: string) returns (options: seq<string>)
    ensures options == Tokens(optionsStr, ',')
  {
    // StringTokenizer walks the comma fields and hands out the non-empty ones
    var fields := Fields(optionsStr, ',');
    var list: seq<string> := [];
    var i := 0;
    while i < |fields|
      invariant 0 <= i <= |fields|
      invariant list == NonEmpty(fields[..i])
    {
      NonEmptySnoc(fields[..i], fields[i]);
      assert fields[..i + 1] == fields[..i] + [fields[i]];
      if fields[i] != [] {
        list := list + [fields[i]];
      }
      i := i + 1;
    }
    assert fields[..|fields|] == fields;
    options := [];
    if list != [] {
      options := list;
    }
  }

  /** Reading one more field adds it to the tokens exactly when it is non-empty. */
  lemma {:induction false} NonEmptySnoc(fields: seq<string>, f: string)
    ensures NonEmpty(fields + [f]) == NonEmpty(fields) + (if f == [] then [] else [f])
  {
    if fields == [] {
      assert fields + [f] == [f];
    } else {
      assert (fields + [f])[1..] == fields[1..] + [f];
      NonEmptySnoc(fields[1..], f);
    }
  }

  /** The options are the non-empty comma fields: joined back with commas they give the input when it has no empty field. */
  lemma ExportOptionsRoundTrip(optionsStr: string)
    requires forall i :: 0 <= i < |Fields(optionsStr, ',')| ==> Fields(optionsStr, ',')[i] != []
    ensures Join(Tokens(optionsStr, ','), ',') == optionsStr
  {
    NonEmptyKeepsAll(Fields(optionsStr, ','));
    JoinFields(optionsStr, ',');
  }

  lemma {:induction false} NonEmptyKeepsAll(fields: seq<string>)
    requires forall i :: 0 <= i < |fields| ==> fields[i] != []
    ensures NonEmpty(fields) == fields
  {
    if fields != [] {
      NonEmptyKeepsAll(fields[1..]);
    }
  }
}
