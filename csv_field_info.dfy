/**
 * Column-type inference for an uploaded CSV file: each column gets the first of
 * integer, float, boolean, url, date and long text that fits all its non-empty
 * values, and `text_metadata` otherwise.
 */
module CsvFieldInfo {

  /**
   * The value recognizers that rest on library parsers — Python's `int()` and
   * `float()`, Django's `URLValidator`, `strptime` with `%Y-%m-%d` — taken as given.
   */
  datatype Recognizers = Recognizers(
    isInt: string -> bool,
    isFloat: string -> bool,
    isUrl: string -> bool,
    isDate: string -> bool
  )

  /** The seven field types a column can be mapped to. */
  datatype FieldType = Integer | Float | Boolean | Url | Date | TextContent | TextMetadata

  /** The label `map_col` returns for each type. */
  function Label(t: FieldType): string {
    match t
    case Integer => "integer"
    case Float => "float"
    case Boolean => "boolean"
    case Url => "url"
    case Date => "date"
    case TextContent => "text_content"
    case TextMetadata => "text_metadata"
  }

  /** Distinct types have distinct labels, so a label names exactly one type. */
  lemma LabelInjective(s: FieldType, t: FieldType)
    requires Label(s) == Label(t)
    ensures s == t
  {
  }

  // ---------------------------------------------------------------------------
  // any / all

  /** Python's `any(map(f, col))`. */
  function Any(col: seq<string>, f: string -> bool): bool
    decreases |col|
  {
    col != [] && (f(col[0]) || Any(col[1..], f))
  }

  /** Python's `all(map(f, col))`. */
  function All(col: seq<string>, f: string -> bool): bool
    decreases |col|
  {
    col == [] || (f(col[0]) && All(col[1..], f))
  }

  lemma {:induction false} AnySpec(col: seq<string>, f: string -> bool)
    ensures Any(col, f) <==> exists i :: 0 <= i < |col| && f(col[i])
    decreases |col|
  {
    if col != [] {
      AnySpec(col[1..], f);
      if f(col[0]) {
        assert 0 < |col| && f(col[0]);
      }
      if exists i :: 0 <= i < |col| && f(col[i]) {
        var i :| 0 <= i < |col| && f(col[i]);
        if i > 0 {
          assert col[1..][i - 1] == col[i];
        }
      }
      forall i | 0 <= i < |col[1..]| && f(col[1..][i])
        ensures exists j :: 0 <= j < |col| && f(col[j])
      {
        assert col[i + 1] == col[1..][i];
      }
    }
  }

  lemma {:induction false} AllSpec(col: seq<string>, f: string -> bool)
    ensures All(col, f) <==> forall i :: 0 <= i < |col| ==> f(col[i])
    decreases |col|
  {
    if col != [] {
      AllSpec(col[1..], f);
      if All(col, f) {
        forall i | 0 <= i < |col| ensures f(col[i]) {
          if i > 0 {
            assert col[i] == col[1..][i - 1];
          }
        }
      }
      if forall i :: 0 <= i < |col| ==> f(col[i]) {
        forall i | 0 <= i < |col[1..]| ensures f(col[1..][i]) {
          assert col[1..][i] == col[i + 1];
        }
      }
    }
  }

  // ---------------------------------------------------------------------------
  // Column predicates

  /**
   * `_col_is_null_or_type`: some value is non-empty and of the type, and every
   * value is empty or of the type.
   */
  predicate ColIsNullOrType(col: seq<string>, isType: string -> bool) {
    Any(col, v => v != "" && isType(v)) && All(col, v => v == "" || isType(v))
  }

  /** A column has the type iff one of its non-empty values has it and no non-empty value lacks it. */
  lemma ColIsNullOrTypeSpec(col: seq<string>, isType: string -> bool)
    ensures ColIsNullOrType(col, isType) <==>
              (exists i :: 0 <= i < |col| && col[i] != "" && isType(col[i]))
              && (forall i :: 0 <= i < |col| ==> col[i] == "" || isType(col[i]))
  {
    AnySpec(col, v => v != "" && isType(v));
    AllSpec(col, v => v == "" || isType(v));
  }

  /** A column of empty values has no type, whatever the recognizer. */
  lemma EmptyColumnIsUntyped(col: seq<string>, isType: string -> bool)
    requires forall i :: 0 <= i < |col| ==> col[i] == ""
    ensures !ColIsNullOrType(col, isType)
  {
    ColIsNullOrTypeSpec(col, isType);
  }

  /** One non-empty value that is not of the type disqualifies the column. */
  lemma NonConformingValueDisqualifies(col: seq<string>, isType: string -> bool, i: nat)
    requires i < |col| && col[i] != "" && !isType(col[i])
    ensures !ColIsNullOrType(col, isType)
  {
    ColIsNullOrTypeSpec(col, isType);
  }

  /** ASCII lower-casing of one character. */
  function LowerChar(c: char): char {
    if 'A' <= c <= 'Z' then (c as int - 'A' as int + 'a' as int) as char else c
  }

  /**
   * `value.lower()`. Only ASCII letters lower-case to the letters of `true` and
   * `false`, so ASCII lower-casing decides the comparisons below as Python's does.
   */
  function Lower(s: string): (r: string)
    ensures |r| == |s|
  {
    seq(|s|, i requires 0 <= i < |s| => LowerChar(s[i]))
  }

  /** `_is_bool`: the lower-cased value is `true` or `false`. */
  predicate IsBool(v: string) {
    Lower(v) in ["true", "false"]
  }

  /** Lower-casing twice is lower-casing once. */
  lemma LowerIdempotent(s: string)
    ensures Lower(Lower(s)) == Lower(s)
  {
    forall i | 0 <= i < |s| ensures Lower(Lower(s))[i] == Lower(s)[i] {
      var c := s[i];
      if 'A' <= c <= 'Z' {
        assert 'a' <= LowerChar(c) <= 'z';
      }
    }
  }

  /** `_is_bool` ignores case: a value is boolean iff its lower-case form is. */
  lemma IsBoolIgnoresCase(v: string)
    ensures IsBool(v) <==> IsBool(Lower(v))
  {
    LowerIdempotent(v);
  }

  /** Only the spellings of `true` and `false` are booleans; other words, and the empty value, are not. */
  lemma IsBoolExamples()
    ensures IsBool("TRUE") && IsBool("False") && IsBool("false")
    ensures !IsBool("") && !IsBool("yes") && !IsBool("1") && !IsBool("true ")
  {
    assert Lower("TRUE") == "true";
    assert Lower("False") == "false";
    assert Lower("false") == "false";
    assert Lower("yes") == "yes";
    assert Lower("true ")[0] == 't';
  }

  /** `_is_long_text`: a non-empty value longer than 100 characters or holding a newline. */
  predicate IsLongText(v: string) {
    v != "" && (|v| > 100 || '\n' in v)
  }

  /** `_is_long_text_col`: some value is long text. */
  predicate IsLongTextCol(col: seq<string>) {
    Any(col, IsLongText)
  }

  lemma IsLongTextColSpec(col: seq<string>)
    ensures IsLongTextCol(col) <==> exists i :: 0 <= i < |col| && IsLongText(col[i])
  {
    AnySpec(col, IsLongText);
  }

  /** A short single-line word is not long text, the empty value is not, a line break makes it long. */
  lemma IsLongTextExamples(long: string)
    requires |long| > 100
    ensures !IsLongText("Example") && !IsLongText("")
    ensures IsLongText("To be or not to be,\nThat is the question")
    ensures IsLongText(long)
  {
    assert "To be or not to be,\nThat is the question"[19] == '\n';
  }

  // ---------------------------------------------------------------------------
  // map_col

  /** `map_col`: the first type, in the order tried, that fits the column. */
  function MapCol(col: seq<string>, r: Recognizers): FieldType {
    if ColIsNullOrType(col, r.isInt) then Integer
    else if ColIsNullOrType(col, r.isFloat) then Float
    else if ColIsNullOrType(col, IsBool) then Boolean
    else if ColIsNullOrType(col, r.isUrl) then Url
    else if ColIsNullOrType(col, r.isDate) then Date
    else if IsLongTextCol(col) then TextContent
    else TextMetadata
  }

  /** The recognizer that decides each typed result. */
  function Recognizer(t: FieldType, r: Recognizers): string -> bool
    requires t !in {TextContent, TextMetadata}
  {
    match t
    case Integer => r.isInt
    case Float => r.isFloat
    case Boolean => IsBool
    case Url => r.isUrl
    case Date => r.isDate
  }

  /** The position of each type in the order `map_col` tries them. */
  function Rank(t: FieldType): nat {
    match t
    case Integer => 0
    case Float => 1
    case Boolean => 2
    case Url => 3
    case Date => 4
    case TextContent => 5
    case TextMetadata => 6
  }

  /**
   * What a typed result guarantees: a column mapped to one of the five value types
   * has a non-empty value, and every non-empty value passes that type's recognizer;
   * a column mapped to `text_content` has a long-text value. Every value type tried
   * before the result does not fit, and `text_metadata` means no value is long text.
   */
  lemma MapColSound(col: seq<string>, r: Recognizers)
    ensures var t := MapCol(col, r);
            t !in {TextContent, TextMetadata} ==>
              (exists i :: 0 <= i < |col| && col[i] != "")
              && forall i :: 0 <= i < |col| && col[i] != "" ==> Recognizer(t, r)(col[i])
    ensures MapCol(col, r) == TextContent ==> exists i :: 0 <= i < |col| && IsLongText(col[i])
    ensures MapCol(col, r) == TextMetadata ==> forall i :: 0 <= i < |col| ==> !IsLongText(col[i])
    ensures forall u :: u !in {TextContent, TextMetadata} && Rank(u) < Rank(MapCol(col, r)) ==>
              !ColIsNullOrType(col, Recognizer(u, r))
  {
    var t := MapCol(col, r);
    if t !in {TextContent, TextMetadata} {
      ColIsNullOrTypeSpec(col, Recognizer(t, r));
    }
    IsLongTextColSpec(col);
  }

  /**
   * Earlier types win: a column whose non-empty values all are integers (and there
   * is one) is `integer` even when they are also floats, booleans, urls or dates.
   */
  lemma MapColPrefersInteger(col: seq<string>, r: Recognizers)
    requires exists i :: 0 <= i < |col| && col[i] != ""
    requires forall i :: 0 <= i < |col| && col[i] != "" ==> r.isInt(col[i])
    ensures MapCol(col, r) == Integer
  {
    ColIsNullOrTypeSpec(col, r.isInt);
  }

  /** A column with no values, or only empty ones, is `text_metadata`. */
  lemma {:induction false} MapColEmptyColumn(col: seq<string>, r: Recognizers)
    requires forall i :: 0 <= i < |col| ==> col[i] == ""
    ensures MapCol(col, r) == TextMetadata
  {
    EmptyColumnIsUntyped(col, r.isInt);
    EmptyColumnIsUntyped(col, r.isFloat);
    EmptyColumnIsUntyped(col, IsBool);
    EmptyColumnIsUntyped(col, r.isUrl);
    EmptyColumnIsUntyped(col, r.isDate);
    IsLongTextColSpec(col);
  }

  /**
   * The url column examples: with `http://example.com` and `https://example.com`
   * recognized and `12345` not, a clean column and one with a blank are url
   * columns; one more value `12345` or a column of blanks is not.
   */
  lemma UrlColumnExamples(r: Recognizers)
    requires r.isUrl("http://example.com") && r.isUrl("https://example.com") && !r.isUrl("12345")
    ensures ColIsNullOrType(["http://example.com", "https://example.com"], r.isUrl)
    ensures ColIsNullOrType(["http://example.com", "https://example.com", ""], r.isUrl)
    ensures !ColIsNullOrType(["http://example.com", "https://example.com", "", "12345"], r.isUrl)
    ensures !ColIsNullOrType(["", ""], r.isUrl)
  {
    var clean := ["http://example.com", "https://example.com"];
    var dirty := clean + [""];
    var bad := clean + ["", "12345"];
    ColIsNullOrTypeSpec(clean, r.isUrl);
    ColIsNullOrTypeSpec(dirty, r.isUrl);
    NonConformingValueDisqualifies(bad, r.isUrl, 3);
    EmptyColumnIsUntyped(["", ""], r.isUrl);
  }

  // ---------------------------------------------------------------------------
  // get_csv_info

  /** One entry of the `fields` list. */
  datatype Field = Field(name: string, fieldType: FieldType)

  /** The information reported about a CSV file. */
  datatype CsvInfo = CsvInfo(nRows: nat, fields: seq<Field>, delimiter: char)

  /**
   * `_get_col_values`: the column's value in each row, in row order. A row that
   * lacks the column (a short line, which `csv.DictReader` fills with None) reads
   * as the empty value, which every check above treats as None is treated.
   */
  function ColValues(name: string, rows: seq<map<string, string>>): seq<string> {
    seq(|rows|, i requires 0 <= i < |rows| => if name in rows[i] then rows[i][name] else "")
  }

  /**
   * `get_csv_info` after the file has been read: `columns` is the header, `rows`
   * the data rows and `delimiter` the sniffed delimiter.
   */
  function CsvInfoOf(columns: seq<string>, rows: seq<map<string, string>>, delimiter: char, r: Recognizers): (info: CsvInfo)
    ensures info.nRows == |rows| && info.delimiter == delimiter
    ensures |info.fields| == |columns|
    ensures forall i :: 0 <= i < |columns| ==> info.fields[i].name == columns[i]
    ensures forall i :: 0 <= i < |columns| ==> info.fields[i].fieldType == MapCol(ColValues(columns[i], rows), r)
  {
    CsvInfo(|rows|, seq(|columns|, i requires 0 <= i < |columns| => Field(columns[i], MapCol(ColValues(columns[i], rows), r))), delimiter)
  }

  /**
   * A column that no row fills is reported as `text_metadata`; a column reported
   * with a value type has a value of that type in some row, and every row that
   * fills it passes that type's recognizer; a column reported as `text_content`
   * has a long text in some row.
   */
  lemma CsvInfoFieldTypes(columns: seq<string>, rows: seq<map<string, string>>, delimiter: char, r: Recognizers, k: nat)
    requires k < |columns|
    ensures var name := columns[k];
            var t := CsvInfoOf(columns, rows, delimiter, r).fields[k].fieldType;
            && ((forall i :: 0 <= i < |rows| ==> name !in rows[i] || rows[i][name] == "") ==> t == TextMetadata)
            && (t !in {TextContent, TextMetadata} ==>
                  && (exists i :: 0 <= i < |rows| && name in rows[i] && rows[i][name] != "" && Recognizer(t, r)(rows[i][name]))
                  && (forall i :: 0 <= i < |rows| && name in rows[i] && rows[i][name] != "" ==> Recognizer(t, r)(rows[i][name])))
            && (t == TextContent ==> exists i :: 0 <= i < |rows| && name in rows[i] && IsLongText(rows[i][name]))
  {
    var name := columns[k];
    var col := ColValues(name, rows);
    if forall i :: 0 <= i < |rows| ==> name !in rows[i] || rows[i][name] == "" {
      MapColEmptyColumn(col, r);
    }
    MapColSound(col, r);
    var t := MapCol(col, r);
    if t !in {TextContent, TextMetadata} {
      var i :| 0 <= i < |col| && col[i] != "";
      assert name in rows[i] && rows[i][name] != "" && Recognizer(t, r)(rows[i][name]);
      forall j | 0 <= j < |rows| && name in rows[j] && rows[j][name] != "" ensures Recognizer(t, r)(rows[j][name]) {
        assert col[j] == rows[j][name];
      }
    }
    if t == TextContent {
      var i :| 0 <= i < |col| && IsLongText(col[i]);
      assert col[i] == if name in rows[i] then rows[i][name] else "";
    }
  }
}
