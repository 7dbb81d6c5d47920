/** registry/validation.go: what the registry accepts. */
module Validation {
  import opened Streams

  datatype ValidationError = ValidationError(readOnly: seq<string>, mandatory: seq<string>, invalid: seq<string>) {
    predicate Err() {
      |readOnly| + |mandatory| + |invalid| > 0
    }
  }

  const SUPPORTED_TYPES := [STRING, BOOL, FLOAT, DATA]

  predicate AlphaNumeric(c: char) {
    'a' <= c <= 'z' || 'A' <= c <= 'Z' || '0' <= c <= '9'
  }

  predicate NameChar(c: char) {
    AlphaNumeric(c) || c == '-' || c == ':' || c == '.' || c == '/' || c == '_'
  }

  /** Matches `^[a-zA-Z0-9]+[a-zA-Z0-9-:./_]*$`. */
  predicate ValidName(s: string) {
    |s| > 0 && AlphaNumeric(s[0]) && forall i :: 0 <= i < |s| ==> NameChar(s[i])
  }

  predicate AcceptsCreation(ds: DataStream) {
    ValidName(ds.name) && ds.dataType in SUPPORTED_TYPES
  }

  predicate AcceptsUpdate(ds: DataStream, prev: DataStream) {
    ds.name == prev.name && ds.dataType == prev.dataType
  }

  /** What a new stream needs: one of four types, and a name of letters and digits in which the
      characters - : . / _ may follow the first. */
  lemma CreationIs(ds: DataStream)
    ensures AcceptsCreation(ds) <==>
              && ds.dataType in ["string", "float", "bool", "data"]
              && ds.name != ""
              && (forall i :: 0 <= i < |ds.name| ==>
                    var c := ds.name[i] as int;
                    || 0x30 <= c <= 0x39 || 0x41 <= c <= 0x5A || 0x61 <= c <= 0x7A
                    || (i > 0 && c in [0x2D, 0x2E, 0x2F, 0x3A, 0x5F]))
  {
    forall c: char ensures NameChar(c) <==>
        || 0x30 <= c as int <= 0x39 || 0x41 <= c as int <= 0x5A || 0x61 <= c as int <= 0x7A || c as int in [0x2D, 0x2E, 0x2F, 0x3A, 0x5F]
    {
      assert '-' as int == 0x2D && '.' as int == 0x2E && '/' as int == 0x2F && ':' as int == 0x3A && '_' as int == 0x5F;
    }
  }

  method ValidateCreation(ds: DataStream) returns (e: ValidationError)
    ensures e.Err() <==> !AcceptsCreation(ds)
    ensures "name" in e.mandatory <==> ds.name == ""
    ensures "name" in e.invalid <==> !ValidName(ds.name)
    ensures "dataType" in e.mandatory <==> ds.dataType == ""
    ensures "type" in e.invalid <==> ds.dataType !in SUPPORTED_TYPES
    ensures e.readOnly == []
  {
    e := ValidationError([], [], []);
    if ds.name == "" {
      e := e.(mandatory := e.mandatory + ["name"]);
    }
    if !ValidName(ds.name) {
      e := e.(invalid := e.invalid + ["name"]);
    }
    if ds.dataType == "" {
      e := e.(mandatory := e.mandatory + ["dataType"]);
    }
    if ds.dataType !in SUPPORTED_TYPES {
      e := e.(invalid := e.invalid + ["type"]);
    }
  }

  method ValidateUpdate(ds: DataStream, prev: DataStream) returns (e: ValidationError)
    ensures e.Err() <==> !AcceptsUpdate(ds, prev)
    ensures "id" in e.readOnly <==> ds.name != prev.name
    ensures "type" in e.readOnly <==> ds.dataType != prev.dataType
    ensures e.mandatory == [] && e.invalid == []
  {
    e := ValidationError([], [], []);
    if ds.name != prev.name {
      e := e.(readOnly := e.readOnly + ["id"]);
    }
    if ds.dataType != prev.dataType {
      e := e.(readOnly := e.readOnly + ["type"]);
    }
  }
}
