/**
 * The string logic of the backend's file storage service: which uploads count
 * as images, the name a stored image gets, the file a deletion targets and the
 * public URL of a stored path. Writing, copying and deleting files, the upload
 * directory and the random UUID are not modelled; the UUID is a parameter.
 */
module FileStorage {
  import opened Wrappers
  import opened Text

  /** The parts of an uploaded multipart file the service reads. */
  datatype Upload = Upload(isEmpty: bool, originalFilename: Option<string>)

  /** The error `storeFile` raises for an upload that is not a valid image. */
  const RejectedType: string := "Tipo de archivo no permitido"

  /** The pieces of `s` between occurrences of `sep`, empty pieces included. */
  function SplitAll(s: string, sep: char): (r: seq<string>)
    ensures |r| >= 1
    ensures forall i :: 0 <= i < |r| ==> sep !in r[i]
  {
    if s == [] then [""]
    else
      var rest := SplitAll(s[1..], sep);
      if s[0] == sep then [""] + rest
      else [[s[0]] + rest[0]] + rest[1..]
  }

  /** The pieces joined back with `sep` between them. */
  function Join(parts: seq<string>, sep: char): string
    requires |parts| >= 1
  {
    if |parts| == 1 then parts[0] else parts[0] + [sep] + Join(parts[1..], sep)
  }

  /** Splitting and joining again gives back the original text. */
  lemma {:induction false} JoinSplitAll(s: string, sep: char)
    ensures Join(SplitAll(s, sep), sep) == s
  {
    if s != [] {
      var rest := SplitAll(s[1..], sep);
      JoinSplitAll(s[1..], sep);
      if s[0] == sep {
        assert ([""] + rest)[1..] == rest;
        assert s == [sep] + s[1..];
      } else {
        var r := [[s[0]] + rest[0]] + rest[1..];
        if |rest| == 1 {
          assert s == [s[0]] + rest[0];
        } else {
          assert r[1..] == rest[1..];
          assert Join(rest, sep) == rest[0] + [sep] + Join(rest[1..], sep);
          assert s == [s[0]] + rest[0] + [sep] + Join(rest[1..], sep);
        }
      }
    }
  }

  /** The pieces without the empty ones at the end. */
  function DropTrailingEmpty(parts: seq<string>): (r: seq<string>)
    ensures |r| <= |parts| && r == parts[..|r|]
    ensures r == [] || r[|r| - 1] != ""
    ensures forall i :: |r| <= i < |parts| ==> parts[i] == ""
  {
    if parts == [] || parts[|parts| - 1] != "" then parts
    else DropTrailingEmpty(parts[..|parts| - 1])
  }

  /**
   * Java's `s.split(",")`: the text itself when the separator does not occur,
   * otherwise the pieces with the trailing empty ones removed.
   */
  function JavaSplit(s: string, sep: char): (r: seq<string>)
    ensures sep !in s ==> r == [s]
    ensures sep in s ==> |r| <= |SplitAll(s, sep)| && r == SplitAll(s, sep)[..|r|] && (r == [] || r[|r| - 1] != "")
    ensures sep in s ==> forall i :: |r| <= i < |SplitAll(s, sep)| ==> SplitAll(s, sep)[i] == ""
    ensures forall i :: 0 <= i < |r| ==> sep !in r[i]
  {
    if sep !in s then [s] else DropTrailingEmpty(SplitAll(s, sep))
  }

  /** A non-empty text is one of the split pieces exactly when it is one of all the pieces. */
  lemma JavaSplitMembership(s: string, sep: char, t: string)
    requires t != ""
    ensures t in JavaSplit(s, sep) <==> t in SplitAll(s, sep)
  {
    var all := SplitAll(s, sep);
    if sep !in s {
      NoSeparatorOnePiece(s, sep);
    } else {
      var r := DropTrailingEmpty(all);
      if t in all {
        var i :| 0 <= i < |all| && all[i] == t;
        assert i < |r|;
        assert r[i] == t;
      }
    }
  }

  /** Without a separator there is one piece, the text itself. */
  lemma {:induction false} NoSeparatorOnePiece(s: string, sep: char)
    requires sep !in s
    ensures SplitAll(s, sep) == [s]
  {
    if s != [] {
      assert s[0] != sep && sep !in s[1..];
      NoSeparatorOnePiece(s[1..], sep);
      assert [s[0]] + s[1..] == s;
    }
  }

  /**
   * The extension `isValidImageFile` checks: the lower-cased text after the last
   * '.', or the whole lower-cased name when it has no '.'.
   */
  function CheckedExtension(name: string): (r: string)
    ensures '.' !in name ==> r == Lower(name)
    ensures '.' in name ==>
      && |r| < |name| && name[|name| - |r| - 1] == '.'
      && '.' !in name[|name| - |r|..] && r == Lower(name[|name| - |r|..])
  {
    var k := LastIndexOf(name, '.');
    Lower(name[k + 1..])
  }

  /**
   * `isValidImageFile`: not empty, with a name, and with a checked extension
   * that is one of the comma-separated allowed extensions.
   */
  function IsValidImageFile(file: Upload, allowedExtensions: string): (ok: bool)
    ensures ok ==> !file.isEmpty && file.originalFilename.Some?
    ensures ok ==> CheckedExtension(file.originalFilename.value) in JavaSplit(allowedExtensions, ',')
    ensures !file.isEmpty && file.originalFilename.Some? && CheckedExtension(file.originalFilename.value) != "" ==>
      (ok <==> CheckedExtension(file.originalFilename.value) in SplitAll(allowedExtensions, ','))
  {
    if file.isEmpty || file.originalFilename.None? then false
    else
      var extension := CheckedExtension(file.originalFilename.value);
      if extension == "" then extension in JavaSplit(allowedExtensions, ',')
      else
        JavaSplitMembership(allowedExtensions, ',', extension);
        extension in JavaSplit(allowedExtensions, ',')
  }

  /** The name of a stored image: "producto_<id>_<uuid>" and the original extension with its dot. */
  function StoredName(idProducto: nat, uuid: string, extension: string): (r: string)
    ensures |r| >= |extension| && r[|r| - |extension|..] == extension
    ensures StartsWith(r, "producto_")
  {
    "producto_" + NatToString(idProducto) + "_" + uuid + extension
  }

  /**
   * `storeFile`: an invalid upload is refused before anything is written; a valid
   * one is stored under a new name in "/uploads/". The extension is taken from
   * the last '.', so a valid name without any '.' fails when it is cut.
   */
  function StoreFile(file: Upload, idProducto: nat, uuid: string, allowedExtensions: string): (r: Result<string>)
    ensures !IsValidImageFile(file, allowedExtensions) ==> r == Err(InvalidArgument(RejectedType))
    ensures IsValidImageFile(file, allowedExtensions) ==>
      var name := file.originalFilename.value;
      && ('.' !in name <==> r.Err?)
      && ('.' in name ==> r == Ok("/uploads/" + StoredName(idProducto, uuid, name[LastIndexOf(name, '.')..])))
  {
    if !IsValidImageFile(file, allowedExtensions) then Err(InvalidArgument(RejectedType))
    else
      var name := file.originalFilename.value;
      var k := LastIndexOf(name, '.');
      if k < 0 then Err(IndexOutOfBounds("originalFileName.substring(-1)"))
      else Ok("/uploads/" + StoredName(idProducto, uuid, name[k..]))
  }

  /** A first piece free of the separator, then the separator: that piece, then the pieces of the rest. */
  lemma {:induction false} SplitAllFirstPiece(w: string, sep: char, rest: string)
    requires sep !in w
    ensures SplitAll(w + [sep] + rest, sep) == [w] + SplitAll(rest, sep)
  {
    var t := w + [sep] + rest;
    if w == [] {
      assert t == [sep] + rest && t[1..] == rest;
    } else {
      assert t[1..] == w[1..] + [sep] + rest;
      SplitAllFirstPiece(w[1..], sep, rest);
      assert [w[0]] + w[1..] == w;
    }
  }

  /** The configured list "jpg,png" splits into its two extensions. */
  lemma SplitJpgPng()
    ensures SplitAll("jpg,png", ',') == ["jpg", "png"]
  {
    assert "jpg,png" == "jpg" + [','] + "png";
    SplitAllFirstPiece("jpg", ',', "png");
    NoSeparatorOnePiece("png", ',');
  }

  /** A name with no '.' that equals an allowed extension passes the check and then fails to store. */
  lemma NameWithoutDotPassesThenFails(idProducto: nat, uuid: string)
    ensures IsValidImageFile(Upload(false, Some("png")), "jpg,png")
    ensures StoreFile(Upload(false, Some("png")), idProducto, uuid, "jpg,png").Err?
  {
    assert '.' !in "png";
    assert Lower("png") == "png";
    SplitJpgPng();
    JavaSplitMembership("jpg,png", ',', "png");
  }

  /** `deleteFile`: the file named by the text after the last '/' of the stored path. */
  function DeleteTarget(rutaImagen: string): (r: string)
    ensures '/' !in r
    ensures |r| <= |rutaImagen| && rutaImagen[|rutaImagen| - |r|..] == r
    ensures '/' !in rutaImagen ==> r == rutaImagen
    ensures '/' in rutaImagen ==> |r| < |rutaImagen| && rutaImagen[|rutaImagen| - |r| - 1] == '/'
  {
    var k := LastIndexOf(rutaImagen, '/');
    rutaImagen[k + 1..]
  }

  /**
   * A stored path leads deletion back to the file that was written, provided the
   * UUID and the extension hold no '/' (a UUID never does).
   */
  lemma DeleteTargetsStoredFile(idProducto: nat, uuid: string, extension: string)
    requires '/' !in uuid && '/' !in extension
    ensures DeleteTarget("/uploads/" + StoredName(idProducto, uuid, extension)) == StoredName(idProducto, uuid, extension)
  {
    var name := StoredName(idProducto, uuid, extension);
    var digits := NatToString(idProducto);
    assert name == "producto_" + digits + "_" + uuid + extension;
    assert '/' !in "producto_";
    assert '/' !in "_";
    assert '/' !in name by {
      forall i | 0 <= i < |name| ensures name[i] != '/' {
        if i < 9 {
        } else if i < 9 + |digits| {
          assert name[i] == digits[i - 9];
        } else if i == 9 + |digits| {
        } else if i < 10 + |digits| + |uuid| {
          assert name[i] == uuid[i - 10 - |digits|];
        } else {
          assert name[i] == extension[i - 10 - |digits| - |uuid|];
        }
      }
    }
    var path := "/uploads/" + name;
    var k := LastIndexOf(path, '/');
    assert path[8] == '/';
    assert path[9..] == name;
    assert k == 8;
  }

  /** `getFullUrl`: the configured base URL followed by the stored path. */
  function FullUrl(baseUrl: string, rutaImagen: string): (r: string)
    ensures StartsWith(r, baseUrl) && r[|baseUrl|..] == rutaImagen
  {
    baseUrl + rutaImagen
  }

  /** Decimal digits of `n`, as Java prints a non-negative `Long`. */
  function NatToString(n: nat): (r: string)
    ensures |r| >= 1
    ensures forall i :: 0 <= i < |r| ==> IsDigit(r[i])
    decreases n
  {
    var d := ['0' + (n % 10) as char];
    if n < 10 then d else NatToString(n / 10) + d
  }

  /** The digit value of a decimal text, most significant digit first. */
  function DigitsValue(s: string): nat
    requires forall i :: 0 <= i < |s| ==> IsDigit(s[i])
  {
    if s == [] then 0
    else
      var last := s[|s| - 1];
      assert IsDigit(last);
      DigitsValue(s[..|s| - 1]) * 10 + (last as int - '0' as int)
  }

  /** Printing a number and reading its digits back gives the number. */
  lemma {:induction false} NatToStringValue(n: nat)
    ensures DigitsValue(NatToString(n)) == n
    decreases n
  {
    var r := NatToString(n);
    if n >= 10 {
      NatToStringValue(n / 10);
      assert r[..|r| - 1] == NatToString(n / 10);
    }
  }
}
