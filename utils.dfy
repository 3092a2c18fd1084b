/** The validators and string helpers of utils.go. */
module Utils {
  import opened Base
  import opened Errors
  import opened Reflect

  /** The `Document` struct of database.go, whose embedding marks a struct as a document. */
  const DocumentType: GoType :=
    Struct("Document", [Field("ID", Basic(StringKind), "_id,omitempty", false),
                        Field("Rev", Basic(StringKind), "_rev,omitempty", false)])

  // ---------------------------------------------------------------------------
  // Database names: ^[a-z][a-z0-9_$()+/-]*$

  /** The class `[a-z]` a name must start with. */
  predicate IsLowerLetter(c: char)
  {
    'a' <= c <= 'z'
  }

  /** The class `[a-z0-9_$()+/-]` every later character must belong to. */
  predicate IsNameChar(c: char)
  {
    IsLowerLetter(c) || '0' <= c <= '9'
    || c == '_' || c == '$' || c == '(' || c == ')' || c == '+' || c == '/' || c == '-'
  }

  /** The starred part of the pattern: matches when every character is in the class. */
  predicate NameCharsStar(s: string)
    ensures NameCharsStar(s) <==> forall i :: 0 <= i < |s| ==> IsNameChar(s[i])
  {
    |s| == 0 || (IsNameChar(s[0]) && NameCharsStar(s[1..]))
  }

  /** `isValidDBName`: the whole name matches the pattern (anchored at both ends). */
  function IsValidDBName(name: string): (ok: bool)
    ensures ok <==> |name| > 0 && IsLowerLetter(name[0])
                    && forall i :: 1 <= i < |name| ==> IsNameChar(name[i])
  {
    |name| > 0 && IsLowerLetter(name[0]) && NameCharsStar(name[1..])
  }

  /** A name that starts with anything but a lower-case letter, or that holds a character
      outside the class (such as `&` or a space), is rejected. */
  lemma {:induction false} RejectedDBNames(name: string, c: char)
    requires c in name
    requires !IsNameChar(c) || (name[0] == c && !IsLowerLetter(c))
    ensures !IsValidDBName(name)
  {
    if !(name[0] == c && !IsLowerLetter(c)) {
      var i :| 0 <= i < |name| && name[i] == c;
      assert !IsNameChar(name[i]);
    }
  }

  /** A name of the package's tests accepted with a hyphen. */
  lemma ValidDBNameHyphen()
    ensures IsValidDBName("my-database")
  {
    assert forall i :: 1 <= i < |"my-database"| ==> IsNameChar("my-database"[i]);
  }

  /** A name of the package's tests accepted with a plus sign. */
  lemma ValidDBNamePlus()
    ensures IsValidDBName("my+database")
  {
    assert forall i :: 1 <= i < |"my+database"| ==> IsNameChar("my+database"[i]);
  }

  /** A name of the package's tests accepted with a slash. */
  lemma ValidDBNameSlash()
    ensures IsValidDBName("my/database")
  {
    assert forall i :: 1 <= i < |"my/database"| ==> IsNameChar("my/database"[i]);
  }

  /** A name of the package's tests accepted with parentheses. */
  lemma ValidDBNameParens()
    ensures IsValidDBName("my(database)")
  {
    assert forall i :: 1 <= i < |"my(database)"| ==> IsNameChar("my(database)"[i]);
  }

  /** A name of the package's tests accepted with `_` and `$`. */
  lemma ValidDBNameDollar()
    ensures IsValidDBName("my_database$")
  {
    assert forall i :: 1 <= i < |"my_database$"| ==> IsNameChar("my_database$"[i]);
  }

  /** A name of the package's tests accepted with `_` and digits. */
  lemma ValidDBNameDigits()
    ensures IsValidDBName("my_database_123")
  {
    assert forall i :: 1 <= i < |"my_database_123"| ==> IsNameChar("my_database_123"[i]);
  }

  /** The name of the package's tests that mixes every special character. */
  lemma ValidDBNameMixed()
    ensures IsValidDBName("my+database-123_$()")
  {
    assert forall i :: 1 <= i < |"my+database-123_$()"| ==> IsNameChar("my+database-123_$()"[i]);
  }

  /** The names the package's tests reject for their first character. */
  lemma InvalidDBNameStartTable()
    ensures !IsValidDBName("Database_123")
    ensures !IsValidDBName("MyDatabase")
    ensures !IsValidDBName("123database")
    ensures !IsValidDBName("_database")
  {
  }

  /** A name of the package's tests rejected for its `&`. */
  lemma InvalidDBNameAmpersand()
    ensures !IsValidDBName("my_database&")
  {
    RejectedDBNames("my_database&", '&');
  }

  /** A name of the package's tests rejected for its space. */
  lemma InvalidDBNameSpace()
    ensures !IsValidDBName("my database")
  {
    assert !IsNameChar("my database"[2]);
  }

  // ---------------------------------------------------------------------------
  // Trailing slash

  /** `addSlashIfNeeded`: the shortest extension of `s` that ends with '/'. */
  function AddSlashIfNeeded(s: string): (r: string)
    ensures |r| > 0 && r[|r| - 1] == '/'
    ensures s <= r && |r| <= |s| + 1
    ensures |s| > 0 && s[|s| - 1] == '/' ==> r == s
  {
    if |s| == 0 || s[|s| - 1] != '/' then s + "/" else s
  }

  lemma AddSlashIdempotent(s: string)
    ensures AddSlashIfNeeded(AddSlashIfNeeded(s)) == AddSlashIfNeeded(s)
  {
  }

  /** The cases of the package's tests. */
  lemma AddSlashTable()
    ensures AddSlashIfNeeded("https://example.com/api/") == "https://example.com/api/"
    ensures AddSlashIfNeeded("https://example.com/api") == "https://example.com/api/"
    ensures AddSlashIfNeeded("") == "/"
    ensures AddSlashIfNeeded("/") == "/"
    ensures AddSlashIfNeeded("test/") == "test/"
    ensures AddSlashIfNeeded("test") == "test/"
  {
  }

  // ---------------------------------------------------------------------------
  // Document identity check

  /** Some field of the struct is an embedded `Document`. */
  predicate EmbedsDocument(fields: seq<Field>)
  {
    exists i :: 0 <= i < |fields| && fields[i].typ == DocumentType && fields[i].anonymous
  }

  predicate IsMapValue(v: Value)    { v.Value? && v.typ.Map? }
  predicate IsStructValue(v: Value) { v.Value? && v.typ.Struct? }

  /** `checkParameter` does not panic: the only maps it accepts are `map[string]interface{}`. */
  predicate CheckParameterDefined(v: Value)
  {
    IsMapValue(v) ==> v.typ == StringInterfaceMap
  }

  /** `checkParameter`: nil (None) when the value carries a document identity, or the error saying what is missing. */
  function CheckParameter(v: Value): (r: Option<Error>)
    requires CheckParameterDefined(v)
    ensures r == None <==> (IsMapValue(v) && "_id" in v.keys && "_rev" in v.keys)
                           || (IsStructValue(v) && EmbedsDocument(v.typ.fields))
    ensures r == Some(MissingID) <==> IsMapValue(v) && "_id" !in v.keys
    ensures r == Some(MissingRev) <==> IsMapValue(v) && "_id" in v.keys && "_rev" !in v.keys
    ensures r == Some(MissingDocumentFields) <==> IsStructValue(v) && !EmbedsDocument(v.typ.fields)
    ensures r == Some(UnsupportedType) <==> !IsMapValue(v) && !IsStructValue(v)
  {
    match v
    case Nil => Some(UnsupportedType)
    case Value(typ, keys) =>
      match typ
      case Map(_, _) =>
        if "_id" !in keys then Some(MissingID)
        else if "_rev" !in keys then Some(MissingRev)
        else None
      case Struct(_, fields) =>
        if EmbedsDocument(fields) then None else Some(MissingDocumentFields)
      case _ => Some(UnsupportedType)
  }

  /** `isValidParam`: the argument is a pointer to a struct or to a `map[string]interface{}`. */
  function IsValidParam(v: Value): (ok: bool)
    ensures ok <==> v.Value? && v.typ.Ptr? && (v.typ.elem.Struct? || v.typ.elem == StringInterfaceMap)
  {
    if v.Nil? then false
    else if !v.typ.Ptr? then false
    else
      match v.typ.elem
      case Struct(_, _) => true
      case Map(key, elem) => key.Basic? && key.kind == StringKind && elem.Interface?
      case _ => false
  }

  /** The argument shapes `GetDoc` accepts (pointers) are all refused by the identity check
      `UpdateDoc` runs, which wants the struct or the map itself. */
  lemma ValidParamIsUnsupportedDocument(v: Value)
    requires IsValidParam(v)
    ensures CheckParameterDefined(v) && CheckParameter(v) == Some(UnsupportedType)
  {
  }

  /** The table of argument shapes exercised by the package's tests. */
  lemma ValidParamTable()
    ensures !IsValidParam(Nil)
    ensures !IsValidParam(Value(Basic(StringKind), {}))
    ensures !IsValidParam(Value(Struct("", []), {}))
    ensures IsValidParam(Value(Ptr(Struct("", [Field("Name", Basic(StringKind), "", false)])), {}))
    ensures IsValidParam(Value(Ptr(StringInterfaceMap), {}))
    ensures !IsValidParam(Value(Ptr(Map(Basic(StringKind), Basic(StringKind))), {}))
    ensures !IsValidParam(Value(Ptr(Map(Basic(IntKind), Interface)), {}))
    ensures !IsValidParam(Value(Ptr(Slice(Basic(StringKind))), {}))
    ensures !IsValidParam(Value(Ptr(Slice(StringInterfaceMap)), {}))
    ensures !IsValidParam(Value(Ptr(Slice(Struct("", [Field("Name", Basic(StringKind), "", false)]))), {}))
    ensures !IsValidParam(Value(Ptr(Slice(Interface)), {}))
    ensures !IsValidParam(Value(Ptr(Map(Basic(StringKind), Basic(IntKind))), {}))
    ensures !IsValidParam(Value(Ptr(Map(Basic(IntKind), Struct("", []))), {}))
    ensures !IsValidParam(Value(Ptr(Map(Basic(IntKind), Basic(StringKind))), {}))
    ensures !IsValidParam(Value(Ptr(Map(Basic(StringKind), Struct("", [Field("Name", Basic(StringKind), "", false)]))), {}))
  {
  }

  /** The map cases of the package's tests (only key presence matters, and a missing `_id`
      is reported even when `_rev` is missing too), the kinds it refuses, and struct cases
      as the code decides them: by an embedded `Document`, not by field tags. */
  lemma CheckParameterTable()
    ensures CheckParameter(Value(StringInterfaceMap, {"_id", "_rev"})) == None
    ensures CheckParameter(Value(StringInterfaceMap, {"_rev"})) == Some(MissingID)
    ensures CheckParameter(Value(StringInterfaceMap, {"_id"})) == Some(MissingRev)
    ensures CheckParameter(Value(StringInterfaceMap, {})) == Some(MissingID)
    ensures CheckParameter(Value(Basic(IntKind), {})) == Some(UnsupportedType)
    ensures CheckParameter(Nil) == Some(UnsupportedType)
    ensures CheckParameter(Value(Struct("Person", [Field("Document", DocumentType, "", true)]), {})) == None
    ensures CheckParameter(Value(Struct("Person", [Field("Doc", DocumentType, "", false)]), {}))
            == Some(MissingDocumentFields)
  {
    var embedded := [Field("Document", DocumentType, "", true)];
    assert embedded[0].typ == DocumentType && embedded[0].anonymous;
  }

  /** The four struct types of the package's tests. None embeds `Document`, so the code
      refuses each of them with MissingDocumentFields, whatever their tags say (the tests
      expect tag-based verdicts instead). */
  lemma TestStructsRefused()
    ensures CheckParameter(Value(Struct("structWithTags", [
              Field("ID", Basic(StringKind), "_id", false),
              Field("Rev", Basic(StringKind), "_rev", false)]), {})) == Some(MissingDocumentFields)
    ensures CheckParameter(Value(Struct("structWithoutTags", [
              Field("ID", Basic(StringKind), "", false),
              Field("Rev", Basic(StringKind), "", false)]), {})) == Some(MissingDocumentFields)
    ensures CheckParameter(Value(Struct("structWithEmptyTags", [
              Field("ID", Basic(StringKind), "", false),
              Field("Rev", Basic(StringKind), "", false)]), {})) == Some(MissingDocumentFields)
    ensures CheckParameter(Value(Struct("structWithMixedTags", [
              Field("ID", Basic(StringKind), "_id", false),
              Field("Rev", Basic(StringKind), "", false)]), {})) == Some(MissingDocumentFields)
  {
  }
}
