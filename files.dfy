/** Serving stored files (src/routes/mod.rs, `get_file`): a file kind and a
    name become a path under ./files/, which is then read from disk. */
module Files {
  import opened Base

  datatype FileKind = ProjectDocumentation | CompanyImage | CustomerImage | UserImage

  /** The directory each kind of file is stored in. */
  function Directory(kind: FileKind): string
  {
    match kind
    case ProjectDocumentation => "./files/reports/documentation/"
    case CompanyImage => "./files/companies/"
    case CustomerImage => "./files/customers/"
    case UserImage => "./files/users/"
  }

  /** The `format!` of `get_file`: the kind's directory with the name appended verbatim. */
  function FilePath(kind: FileKind, name: string): (path: string)
    ensures |path| == |Directory(kind)| + |name|
    ensures path[..|Directory(kind)|] == Directory(kind)
    ensures path[|Directory(kind)|..] == name
  {
    Directory(kind) + name
  }

  /** Reading a path back: the kind whose directory starts it, and the rest. */
  function ParsePath(path: string): Option<(FileKind, string)>
  {
    if Starts(path, Directory(ProjectDocumentation)) then Some((ProjectDocumentation, path[|Directory(ProjectDocumentation)|..]))
    else if Starts(path, Directory(CompanyImage)) then Some((CompanyImage, path[|Directory(CompanyImage)|..]))
    else if Starts(path, Directory(CustomerImage)) then Some((CustomerImage, path[|Directory(CustomerImage)|..]))
    else if Starts(path, Directory(UserImage)) then Some((UserImage, path[|Directory(UserImage)|..]))
    else None
  }

  predicate Starts(s: string, prefix: string)
  {
    |prefix| <= |s| && s[..|prefix|] == prefix
  }

  /** No directory is a prefix of another, so a path names one kind and one name:
      the mapping is one-to-one. */
  lemma ParseFilePath(kind: FileKind, name: string)
    ensures ParsePath(FilePath(kind, name)) == Some((kind, name))
  {
    var p := FilePath(kind, name);
    var d := Directory(kind);
    assert p[..|d|] == d;
    // The four directories differ inside their common length.
    assert Directory(ProjectDocumentation)[8] == 'r';
    assert Directory(CompanyImage)[8] == 'c' && Directory(CompanyImage)[9] == 'o';
    assert Directory(CustomerImage)[8] == 'c' && Directory(CustomerImage)[9] == 'u';
    assert Directory(UserImage)[8] == 'u';
    match kind {
      case ProjectDocumentation =>
      case CompanyImage =>
        assert p[8] == 'c';
        assert !Starts(p, Directory(ProjectDocumentation));
      case CustomerImage =>
        assert p[8] == 'c' && p[9] == 'u';
        assert !Starts(p, Directory(ProjectDocumentation));
        assert !Starts(p, Directory(CompanyImage));
      case UserImage =>
        assert p[8] == 'u';
        assert !Starts(p, Directory(ProjectDocumentation));
        assert !Starts(p, Directory(CompanyImage));
        assert !Starts(p, Directory(CustomerImage));
    }
  }

  /** Two requests map to the same path only if they are the same request. */
  lemma FilePathInjective(k1: FileKind, n1: string, k2: FileKind, n2: string)
    requires FilePath(k1, n1) == FilePath(k2, n2)
    ensures k1 == k2 && n1 == n2
  {
    ParseFilePath(k1, n1);
    ParseFilePath(k2, n2);
  }

  /** A name is not checked: `..` segments are appended as given. */
  lemma NameNotSanitised()
    ensures FilePath(UserImage, "../../keys/private_access.key")
         == "./files/users/../../keys/private_access.key"
  {
  }

  /** `get_file`: 200 with the bytes and a content type guessed from the path
      when the path can be read, otherwise 404 CONTENT_NOT_FOUND. Reading the
      disk and guessing the type are the parameters `read` and `mime`. */
  function GetFile(kind: FileKind, name: string,
                   read: string -> Option<seq<bv8>>, mime: string -> string): (r: (Response, string))
    ensures read(FilePath(kind, name)).None? <==> r.0 == Response(404, "CONTENT_NOT_FOUND")
    ensures r.0.status == 200 <==> read(FilePath(kind, name)).Some?
    ensures r.0.status == 200 ==> r.1 == mime(FilePath(kind, name))
  {
    var path := FilePath(kind, name);
    match read(path)
    case Some(bytes) => (Response(200, BytesText(bytes)), mime(path))
    case None => (Response(404, "CONTENT_NOT_FOUND"), "")
  }

  /** The body of a served file, one character per byte. */
  function BytesText(bytes: seq<bv8>): (s: string)
    ensures |s| == |bytes|
  {
    seq(|bytes|, i requires 0 <= i < |bytes| => bytes[i] as char)
  }
}
