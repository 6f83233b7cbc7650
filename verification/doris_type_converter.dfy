/**
 * The Doris column-type converter of the Doris connector
 * (DorisTypeConverter): `convert` turns a Doris column definition into an
 * engine column, `reconvert` turns an engine column back into a Doris
 * column definition. Both are stateless.
 *
 * Column-type text such as "decimalv3(36,2)" is modelled already split into
 * a type name and its numeric arguments; the Doris type-name constants
 * (DORIS_CHAR, DORIS_JSONB, ...) are the constructors of `DorisName`, whose
 * spelling is not modelled. The constants whose values are not part of this
 * model (the CHAR / VARCHAR / STRING length cut-offs, MAX_STRING_LENGTH,
 * DEFAULT_PRECISION, DEFAULT_SCALE) are fields of a `Limits` parameter,
 * constrained only by the points the converter's tests pin down.
 */
module DorisTypeConverter {
  import opened Wrappers

  /** The engine's column types. */
  datatype EngineType =
    | VoidType
    | BooleanType
    | ByteType
    | ShortType
    | IntType
    | LongType
    | FloatType
    | DoubleType
    | StringType
    | DateType
    | DateTimeType
    | TimeType
    | DecimalType(precision: nat, scale: nat)
    | BytesType
    | ArrayType(elementType: EngineType)

  /** The Doris type names the converter knows (the DORIS_* constants). */
  datatype DorisName =
    | NULL | BOOLEAN | TINYINT | SMALLINT | INT | BIGINT | LARGEINT | FLOAT | DOUBLE
    | DECIMAL | DECIMALV3 | CHAR | VARCHAR | STRING | JSON | JSONB
    | DATE | DATEV2 | DATETIME | DATETIMEV2
    | BOOLEAN_ARRAY | TINYINT_ARRAY | SMALLINT_ARRAY | INT_ARRAY
    | BIGINT_ARRAY | FLOAT_ARRAY | DOUBLE_ARRAY | STRING_ARRAY

  /** A type name as found in a column definition: one the converter knows, or any other text. */
  datatype TypeName = Known(name: DorisName) | Unknown(text: string)

  /** A column type: its name and its parenthesised arguments, "varchar(2)" being (VARCHAR, [2]). */
  datatype ColumnType = ColumnType(typeName: TypeName, args: seq<nat>)

  /** A Doris column definition (BasicTypeDefine). */
  datatype TypeDefine = TypeDefine(
    name: string,
    columnType: ColumnType,
    dataType: TypeName,
    length: Option<nat>,
    precision: Option<nat>,
    scale: Option<nat>,
    nullable: bool,
    defaultValue: Option<string>,
    comment: Option<string>)

  /** An engine column (PhysicalColumn); `sourceType` is the column type it was converted from. */
  datatype Column = Column(
    name: string,
    dataType: EngineType,
    columnLength: Option<nat>,
    scale: Option<nat>,
    nullable: bool,
    defaultValue: Option<string>,
    comment: Option<string>,
    sourceType: Option<ColumnType>)

  /**
   * The converter's numeric constants: the largest lengths reconvert writes
   * as CHAR(n), as VARCHAR(n) and as STRING, the length convert gives to
   * STRING and JSON columns (MAX_STRING_LENGTH), and the decimal defaults.
   */
  datatype Limits = Limits(
    charMax: nat,
    varcharMax: nat,
    stringMax: nat,
    maxStringLength: nat,
    defaultPrecision: nat,
    defaultScale: nat)

  /**
   * What the tests fix about the constants: a length of 255 is a CHAR,
   * 65535 a VARCHAR, 16777215 a STRING and 4294967295 too long.
   */
  predicate ValidLimits(limits: Limits) {
    && 255 <= limits.charMax < 65535 <= limits.varcharMax < 16777215 <= limits.stringMax < 4294967295
  }

  /** STRING and JSON columns, which convert gives MAX_STRING_LENGTH, reconvert back to STRING. */
  predicate StringLengthsAgree(limits: Limits) {
    limits.varcharMax < limits.maxStringLength <= limits.stringMax
  }

  /** The SeaTunnelRuntimeExceptions the converter raises. */
  datatype ConvertError =
    | UnsupportedColumnType(columnType: ColumnType)
    | UnsupportedDataType(dataType: EngineType)
    | StringTooLong(length: nat)

  /** A column type without arguments. */
  function Plain(name: DorisName): ColumnType {
    ColumnType(Known(name), [])
  }

  /** The element type of a Doris array type name; None for the other names. */
  function ArrayElement(name: DorisName): (e: Option<EngineType>)
    ensures e.Some? ==> !e.value.ArrayType? && !e.value.DecimalType?
  {
    match name
    case BOOLEAN_ARRAY => Some(BooleanType)
    case TINYINT_ARRAY => Some(ByteType)
    case SMALLINT_ARRAY => Some(ShortType)
    case INT_ARRAY => Some(IntType)
    case BIGINT_ARRAY => Some(LongType)
    case FLOAT_ARRAY => Some(FloatType)
    case DOUBLE_ARRAY => Some(DoubleType)
    case STRING_ARRAY => Some(StringType)
    case _ => None
  }

  /** The Doris array type name for arrays of the given element type; None when Doris has none. */
  function ArrayName(element: EngineType): (name: Option<DorisName>)
    ensures name.Some? ==> ArrayElement(name.value) == Some(element)
  {
    match element
    case BooleanType => Some(BOOLEAN_ARRAY)
    case ByteType => Some(TINYINT_ARRAY)
    case ShortType => Some(SMALLINT_ARRAY)
    case IntType => Some(INT_ARRAY)
    case LongType => Some(BIGINT_ARRAY)
    case FloatType => Some(FLOAT_ARRAY)
    case DoubleType => Some(DOUBLE_ARRAY)
    case StringType => Some(STRING_ARRAY)
    case _ => None
  }

  /** The two array tables are inverse to each other. */
  lemma ArrayNamesInverse(name: DorisName, element: EngineType)
    ensures ArrayName(element) == Some(name) <==> ArrayElement(name) == Some(element)
  {
  }

  /** The engine column for a definition, carrying over its name, nullability, default, comment and column type. */
  function Build(t: TypeDefine, dataType: EngineType, columnLength: Option<nat>, scale: Option<nat>): (c: Column)
    ensures Carries(t, c)
  {
    Column(t.name, dataType, columnLength, scale, t.nullable, t.defaultValue, t.comment, Some(t.columnType))
  }

  /** c was converted from t: the metadata is t's and the source type is t's column type. */
  predicate Carries(t: TypeDefine, c: Column) {
    && c.name == t.name
    && c.nullable == t.nullable
    && c.defaultValue == t.defaultValue
    && c.comment == t.comment
    && c.sourceType == Some(t.columnType)
  }

  /** The engine types convert can produce: Doris has no byte, time or binary columns. */
  predicate ConvertRange(e: EngineType) {
    !e.ByteType? && !e.TimeType? && !e.BytesType?
  }

  /** The Doris types that convert to the engine's STRING. */
  predicate IsStringName(name: DorisName) {
    name.LARGEINT? || name.CHAR? || name.VARCHAR? || name.STRING? || name.JSON? || name.JSONB?
  }

  /**
   * convert: the engine column for a Doris column definition. The column
   * type's name decides the engine type, the column length and the scale;
   * "tinyint(1)" is a boolean; a decimal takes the definition's precision
   * and scale, or DEFAULT_PRECISION when the column type has no arguments.
   */
  function Convert(t: TypeDefine, limits: Limits): (r: Result<Column, ConvertError>)
    ensures r.Failure? <==> t.columnType.typeName.Unknown?
    ensures r.Failure? ==> r.error == UnsupportedColumnType(t.columnType)
    ensures r.Success? ==> Carries(t, r.value) && ConvertRange(r.value.dataType)
    ensures r.Success? ==>
              (r.value.dataType == StringType <==> IsStringName(t.columnType.typeName.name))
    ensures r.Success? ==>
              (r.value.dataType == BooleanType <==>
                 t.columnType.typeName.name == BOOLEAN || t.columnType == ColumnType(Known(TINYINT), [1]))
    ensures r.Success? && r.value.dataType.DecimalType? ==>
              && (t.columnType.typeName.name.DECIMAL? || t.columnType.typeName.name.DECIMALV3?)
              && r.value.columnLength == t.precision
              && r.value.scale == Some(r.value.dataType.scale)
  {
    match t.columnType.typeName
    case Unknown(_) => Failure(UnsupportedColumnType(t.columnType))
    case Known(name) =>
      Success(Column(t.name, ConvertedType(t, limits), ConvertedLength(t, limits), ConvertedScale(t, limits),
                     t.nullable, t.defaultValue, t.comment, Some(t.columnType)))
  }

  /** The engine type of a known definition, chosen by its name. */
  function ConvertedType(t: TypeDefine, limits: Limits): EngineType
    requires t.columnType.typeName.Known?
  {
    match t.columnType.typeName.name
    case NULL => VoidType
    case BOOLEAN => BooleanType
    case TINYINT => if t.columnType.args == [1] then BooleanType else ShortType
    case SMALLINT => ShortType
    case INT => IntType
    case BIGINT => LongType
    case LARGEINT => StringType
    case FLOAT => FloatType
    case DOUBLE => DoubleType
    case DECIMAL => DecimalType(DecimalPrecision(t, limits), t.scale.GetOr(limits.defaultScale))
    case DECIMALV3 => DecimalType(DecimalPrecision(t, limits), t.scale.GetOr(limits.defaultScale))
    case CHAR => StringType
    case VARCHAR => StringType
    case STRING => StringType
    case JSON => StringType
    case JSONB => StringType
    case DATE => DateType
    case DATEV2 => DateType
    case DATETIME => DateTimeType
    case DATETIMEV2 => DateTimeType
    case BOOLEAN_ARRAY => ArrayType(BooleanType)
    case TINYINT_ARRAY => ArrayType(ByteType)
    case SMALLINT_ARRAY => ArrayType(ShortType)
    case INT_ARRAY => ArrayType(IntType)
    case BIGINT_ARRAY => ArrayType(LongType)
    case FLOAT_ARRAY => ArrayType(FloatType)
    case DOUBLE_ARRAY => ArrayType(DoubleType)
    case STRING_ARRAY => ArrayType(StringType)
  }

  /** A decimal's precision: DEFAULT_PRECISION without column-type arguments, else the definition's (or the default). */
  function DecimalPrecision(t: TypeDefine, limits: Limits): nat {
    if t.columnType.args == [] then limits.defaultPrecision else t.precision.GetOr(limits.defaultPrecision)
  }

  /** The column length of a known definition: 39 for LARGEINT, the precision of a decimal, the length of CHAR and VARCHAR, MAX_STRING_LENGTH for STRING and JSON. */
  function ConvertedLength(t: TypeDefine, limits: Limits): Option<nat>
    requires t.columnType.typeName.Known?
  {
    match t.columnType.typeName.name
    case LARGEINT => Some(39)
    case DECIMAL => t.precision
    case DECIMALV3 => t.precision
    case CHAR => t.length
    case VARCHAR => t.length
    case STRING => Some(limits.maxStringLength)
    case JSON => Some(limits.maxStringLength)
    case JSONB => Some(limits.maxStringLength)
    case _ => None
  }

  /** The scale of a known definition: a decimal's scale (or DEFAULT_SCALE), a datetime's scale. */
  function ConvertedScale(t: TypeDefine, limits: Limits): Option<nat>
    requires t.columnType.typeName.Known?
  {
    match t.columnType.typeName.name
    case DECIMAL => Some(t.scale.GetOr(limits.defaultScale))
    case DECIMALV3 => Some(t.scale.GetOr(limits.defaultScale))
    case DATETIME => t.scale
    case DATETIMEV2 => t.scale
    case _ => None
  }

  /** Rank of the string column types in order of capacity: CHAR, VARCHAR, STRING. */
  function StringRank(name: TypeName): nat {
    if name == Known(CHAR) then 0 else if name == Known(VARCHAR) then 1 else 2
  }

  /**
   * The Doris column type for a string column of the given length: STRING
   * without a length, CHAR(n) and VARCHAR(n) up to their cut-offs, STRING up
   * to its cut-off, and an error above it.
   */
  function StringColumnType(length: Option<nat>, limits: Limits): (r: Result<ColumnType, ConvertError>)
    ensures r.Success? ==> r.value.typeName == Known(CHAR) || r.value.typeName == Known(VARCHAR) || r.value.typeName == Known(STRING)
    ensures r.Success? && r.value.typeName != Known(STRING) ==>
              length.Some? && length.value > 0 && r.value.args == [length.value]
    ensures r.Success? && r.value.typeName == Known(STRING) ==> r.value.args == []
    ensures r.Failure? ==> length.Some? && r.error == StringTooLong(length.value)
  {
    if length.None? || length.value == 0 then Success(Plain(STRING))
    else if length.value <= limits.charMax then Success(ColumnType(Known(CHAR), [length.value]))
    else if length.value <= limits.varcharMax then Success(ColumnType(Known(VARCHAR), [length.value]))
    else if length.value <= limits.stringMax then Success(Plain(STRING))
    else Failure(StringTooLong(length.value))
  }

  /** The definition for a column, carrying over its name, nullability, default and comment. */
  function Define(c: Column, columnType: ColumnType, length: Option<nat>, precision: Option<nat>, scale: Option<nat>): (t: TypeDefine)
    ensures Keeps(c, t) && t.columnType == columnType
  {
    TypeDefine(c.name, columnType, columnType.typeName, length, precision, scale, c.nullable, c.defaultValue, c.comment)
  }

  /** t was reconverted from c: the metadata is c's and the data type is the column type's name. */
  predicate Keeps(c: Column, t: TypeDefine) {
    && t.name == c.name
    && t.nullable == c.nullable
    && t.defaultValue == c.defaultValue
    && t.comment == c.comment
    && t.dataType == t.columnType.typeName
  }

  /** A string column that came from a Doris LARGEINT, JSON or JSONB column keeps that type. */
  predicate SpecialStringSource(source: Option<ColumnType>) {
    source == Some(Plain(LARGEINT)) || source == Some(Plain(JSON)) || source == Some(Plain(JSONB))
  }

  /**
   * reconvert: the Doris column definition for an engine column. Strings
   * that came from LARGEINT or JSON go back to LARGEINT and JSONB; other
   * strings are sized by StringColumnType; bytes are always STRING; times
   * are VARCHAR(8); arrays need an element type Doris has.
   */
  function Reconvert(c: Column, limits: Limits): (r: Result<TypeDefine, ConvertError>)
    ensures r.Success? ==> Keeps(c, r.value) && r.value.columnType.typeName.Known?
    ensures r.Failure? <==>
              || (c.dataType.ArrayType? && ArrayName(c.dataType.elementType).None?)
              || (c.dataType == StringType && !SpecialStringSource(c.sourceType)
                  && StringColumnType(c.columnLength, limits).Failure?)
    ensures r.Failure? && c.dataType.ArrayType? ==> r.error == UnsupportedDataType(c.dataType)
    ensures r.Failure? && c.dataType == StringType ==> r.error == StringTooLong(c.columnLength.value)
  {
    match c.dataType
    case VoidType => Success(Define(c, Plain(NULL), None, None, None))
    case BooleanType => Success(Define(c, Plain(BOOLEAN), Some(1), None, None))
    case ByteType => Success(Define(c, Plain(TINYINT), None, None, None))
    case ShortType => Success(Define(c, Plain(SMALLINT), None, None, None))
    case IntType => Success(Define(c, Plain(INT), None, None, None))
    case LongType => Success(Define(c, Plain(BIGINT), None, None, None))
    case FloatType => Success(Define(c, Plain(FLOAT), None, None, None))
    case DoubleType => Success(Define(c, Plain(DOUBLE), None, None, None))
    case DecimalType(precision, scale) =>
      if precision == 0 then
        Success(Define(c, ColumnType(Known(DECIMALV3), [limits.defaultPrecision, limits.defaultScale]),
                       None, Some(limits.defaultPrecision), Some(limits.defaultScale)))
      else
        Success(Define(c, ColumnType(Known(DECIMALV3), [precision, scale]), None, Some(precision), Some(scale)))
    case StringType =>
      if c.sourceType == Some(Plain(LARGEINT)) then Success(Define(c, Plain(LARGEINT), None, None, None))
      else if c.sourceType == Some(Plain(JSON)) || c.sourceType == Some(Plain(JSONB)) then
        Success(Define(c, Plain(JSONB), None, None, None))
      else
        (match StringColumnType(c.columnLength, limits)
         case Failure(e) => Failure(e)
         case Success(columnType) =>
           Success(Define(c, columnType, if columnType.args == [] then None else c.columnLength, None, None)))
    case BytesType => Success(Define(c, Plain(STRING), None, None, None))
    case DateType => Success(Define(c, Plain(DATEV2), None, None, None))
    case TimeType => Success(Define(c, ColumnType(Known(VARCHAR), [8]), Some(8), None, None))
    case DateTimeType =>
      if c.scale.None? then Success(Define(c, Plain(DATETIMEV2), None, None, None))
      else Success(Define(c, ColumnType(Known(DATETIMEV2), [c.scale.value]), None, None, c.scale))
    case ArrayType(element) =>
      match ArrayName(element)
      case None => Failure(UnsupportedDataType(c.dataType))
      case Some(name) => Success(Define(c, Plain(name), None, None, None))
  }

  /**
   * Under the tested cut-offs a string length picks exactly one class:
   * CHAR(n) up to charMax, VARCHAR(n) up to varcharMax, STRING up to
   * stringMax, and an error above.
   */
  lemma StringClasses(n: nat, limits: Limits)
    requires ValidLimits(limits) && 0 < n
    ensures StringColumnType(Some(n), limits) == Success(ColumnType(Known(CHAR), [n])) <==> n <= limits.charMax
    ensures StringColumnType(Some(n), limits) == Success(ColumnType(Known(VARCHAR), [n])) <==>
              limits.charMax < n <= limits.varcharMax
    ensures StringColumnType(Some(n), limits) == Success(Plain(STRING)) <==>
              limits.varcharMax < n <= limits.stringMax
    ensures StringColumnType(Some(n), limits) == Failure(StringTooLong(n)) <==> limits.stringMax < n
  {
  }

  /** A longer string never gets a smaller Doris string type. */
  lemma StringClassMonotone(n: nat, m: nat, limits: Limits)
    requires ValidLimits(limits) && 0 < n <= m
    requires StringColumnType(Some(m), limits).Success?
    ensures StringColumnType(Some(n), limits).Success?
    ensures StringRank(StringColumnType(Some(n), limits).value.typeName)
            <= StringRank(StringColumnType(Some(m), limits).value.typeName)
  {
  }

  /** Reconverting binary data never fails, whatever its length. */
  lemma BytesAlwaysReconvert(c: Column, limits: Limits)
    requires c.dataType == BytesType
    ensures Reconvert(c, limits).Success?
    ensures Reconvert(c, limits).value.columnType == Plain(STRING)
  {
  }

  /** An array type name converts to the engine array of the element the array table names. */
  lemma ConvertArrays(t: TypeDefine, limits: Limits)
    requires t.columnType.typeName.Known? && ArrayElement(t.columnType.typeName.name).Some?
    ensures Convert(t, limits) == Success(Build(t, ArrayType(ArrayElement(t.columnType.typeName.name).value), None, None))
  {
  }

  /** NULL, BOOLEAN and the integer and floating-point names convert without a length or scale. */
  lemma ConvertNumbers(t: TypeDefine, limits: Limits)
    requires t.columnType.typeName.Known?
    requires var name := t.columnType.typeName.name;
             || name.NULL? || name.BOOLEAN? || name.TINYINT? || name.SMALLINT?
             || name.INT? || name.BIGINT? || name.FLOAT? || name.DOUBLE?
    ensures Convert(t, limits) == Success(Build(t, ConvertedType(t, limits), None, None))
  {
  }

  /** LARGEINT converts to a string of length 39, the digits of the largest 128-bit integer. */
  lemma ConvertLargeint(t: TypeDefine, limits: Limits)
    requires t.columnType.typeName == Known(LARGEINT)
    ensures Convert(t, limits) == Success(Build(t, StringType, Some(39), None))
  {
  }

  /** CHAR and VARCHAR convert to a string with the definition's length. */
  lemma ConvertSizedStrings(t: TypeDefine, limits: Limits)
    requires t.columnType.typeName == Known(CHAR) || t.columnType.typeName == Known(VARCHAR)
    ensures Convert(t, limits) == Success(Build(t, StringType, t.length, None))
  {
  }

  /** STRING, JSON and JSONB convert to a string of length MAX_STRING_LENGTH. */
  lemma ConvertTexts(t: TypeDefine, limits: Limits)
    requires t.columnType.typeName == Known(STRING) || t.columnType.typeName == Known(JSON) || t.columnType.typeName == Known(JSONB)
    ensures Convert(t, limits) == Success(Build(t, StringType, Some(limits.maxStringLength), None))
  {
  }

  /**
   * DECIMAL and DECIMALV3 convert to an engine decimal with DecimalPrecision
   * and the definition's scale (or DEFAULT_SCALE); the column length is the
   * definition's precision.
   */
  lemma ConvertDecimals(t: TypeDefine, limits: Limits)
    requires t.columnType.typeName == Known(DECIMAL) || t.columnType.typeName == Known(DECIMALV3)
    ensures var scale := t.scale.GetOr(limits.defaultScale);
            Convert(t, limits) == Success(Build(t, DecimalType(DecimalPrecision(t, limits), scale), t.precision, Some(scale)))
  {
  }

  /** DATE and DATEV2 convert to the engine's date with no length or scale. */
  lemma ConvertDates(t: TypeDefine, limits: Limits)
    requires t.columnType.typeName == Known(DATE) || t.columnType.typeName == Known(DATEV2)
    ensures Convert(t, limits) == Success(Build(t, DateType, None, None))
  {
  }

  /** DATETIME and DATETIMEV2 convert to the engine's datetime with the definition's scale and no length. */
  lemma ConvertDateTimes(t: TypeDefine, limits: Limits)
    requires t.columnType.typeName == Known(DATETIME) || t.columnType.typeName == Known(DATETIMEV2)
    ensures Convert(t, limits) == Success(Build(t, DateTimeType, None, t.scale))
  {
  }

  /** A string column from a LARGEINT keeps that type, one from JSON or JSONB becomes JSONB. */
  lemma ReconvertSpecialStrings(c: Column, limits: Limits)
    requires c.dataType == StringType && SpecialStringSource(c.sourceType)
    ensures Reconvert(c, limits)
            == Success(Define(c, Plain(if c.sourceType == Some(Plain(LARGEINT)) then LARGEINT else JSONB), None, None, None))
  {
  }

  /** Any other string column is sized by StringColumnType, keeping its length for CHAR and VARCHAR. */
  lemma ReconvertSizedStrings(c: Column, limits: Limits)
    requires c.dataType == StringType && !SpecialStringSource(c.sourceType)
    requires StringColumnType(c.columnLength, limits).Success?
    ensures var columnType := StringColumnType(c.columnLength, limits).value;
            Reconvert(c, limits) == Success(Define(c, columnType, if columnType.args == [] then None else c.columnLength, None, None))
  {
  }

  /** Reconvert of an array whose element type Doris has is the plain array type name, with c's metadata. */
  lemma ReconvertArrays(c: Column, limits: Limits)
    requires c.dataType.ArrayType? && ArrayName(c.dataType.elementType).Some?
    ensures Reconvert(c, limits) == Success(Define(c, Plain(ArrayName(c.dataType.elementType).value), None, None, None))
  {
  }

  /**
   * The engine type a column has after a trip to Doris and back: bytes and
   * times come back as strings, bytes (tinyint) as shorts, and a decimal
   * without precision as the default decimal; every other type comes back
   * unchanged.
   */
  function Widen(e: EngineType, limits: Limits): EngineType {
    match e
    case ByteType => ShortType
    case TimeType => StringType
    case BytesType => StringType
    case DecimalType(precision, _) =>
      if precision == 0 then DecimalType(limits.defaultPrecision, limits.defaultScale) else e
    case _ => e
  }

  /** Widening changes nothing that convert can produce, apart from a decimal of precision 0. */
  lemma WidenFixesConvertRange(e: EngineType, limits: Limits)
    requires ConvertRange(e) && !(e.DecimalType? && e.precision == 0)
    ensures Widen(e, limits) == e
  {
  }

  /**
   * Engine to Doris to engine: every column reconvert accepts converts
   * back, with its metadata, with its type widened as Widen says, with a
   * datetime's scale, and with the length of a CHAR or VARCHAR string.
   */
  lemma EngineRoundTrip(c: Column, limits: Limits)
    requires ValidLimits(limits)
    requires Reconvert(c, limits).Success?
    ensures Convert(Reconvert(c, limits).value, limits).Success?
    ensures var back := Convert(Reconvert(c, limits).value, limits).value;
            && back.name == c.name && back.nullable == c.nullable
            && back.defaultValue == c.defaultValue && back.comment == c.comment
            && back.dataType == Widen(c.dataType, limits)
            && (c.dataType == DateTimeType ==> back.scale == c.scale)
            && (c.dataType == StringType && !SpecialStringSource(c.sourceType)
                && c.columnLength.Some? && 0 < c.columnLength.value <= limits.varcharMax
                ==> back.columnLength == c.columnLength)
  {
    if c.dataType == StringType {
      StringEngineRoundTrip(c, limits);
    } else if c.dataType.ArrayType? {
      ArrayEngineRoundTrip(c, limits);
    } else if c.dataType.DecimalType? {
      DecimalEngineRoundTrip(c, limits);
    } else {
      ScalarEngineRoundTrip(c, limits);
    }
  }

  /** EngineRoundTrip for decimals: precision 0 comes back as the default decimal. */
  lemma DecimalEngineRoundTrip(c: Column, limits: Limits)
    requires ValidLimits(limits)
    requires c.dataType.DecimalType?
    ensures Convert(Reconvert(c, limits).value, limits).Success?
    ensures Convert(Reconvert(c, limits).value, limits).value.dataType == Widen(c.dataType, limits)
  {
    var precision := if c.dataType.precision == 0 then limits.defaultPrecision else c.dataType.precision;
    var scale := if c.dataType.precision == 0 then limits.defaultScale else c.dataType.scale;
    var t := Define(c, ColumnType(Known(DECIMALV3), [precision, scale]), None, Some(precision), Some(scale));
    assert Reconvert(c, limits) == Success(t);
    ConvertDecimals(t, limits);
  }

  /** EngineRoundTrip for strings: LARGEINT and JSON sources, or sized by the length. */
  lemma StringEngineRoundTrip(c: Column, limits: Limits)
    requires ValidLimits(limits)
    requires c.dataType == StringType && Reconvert(c, limits).Success?
    ensures Convert(Reconvert(c, limits).value, limits).Success?
    ensures var back := Convert(Reconvert(c, limits).value, limits).value;
            && back.dataType == StringType
            && (!SpecialStringSource(c.sourceType) && c.columnLength.Some? && 0 < c.columnLength.value <= limits.varcharMax
                ==> back.columnLength == c.columnLength)
  {
    var t := Reconvert(c, limits).value;
    if c.sourceType == Some(Plain(LARGEINT)) {
      assert t.columnType == Plain(LARGEINT);
    } else if c.sourceType == Some(Plain(JSON)) || c.sourceType == Some(Plain(JSONB)) {
      assert t.columnType == Plain(JSONB);
    } else {
      assert t.columnType == StringColumnType(c.columnLength, limits).value;
    }
  }

  /** EngineRoundTrip for arrays: the element type comes back through the two array tables. */
  lemma ArrayEngineRoundTrip(c: Column, limits: Limits)
    requires c.dataType.ArrayType? && Reconvert(c, limits).Success?
    ensures Convert(Reconvert(c, limits).value, limits).Success?
    ensures Convert(Reconvert(c, limits).value, limits).value.dataType == c.dataType
  {
    var t := Reconvert(c, limits).value;
    assert t.columnType == Plain(ArrayName(c.dataType.elementType).value);
  }

  /** EngineRoundTrip for the types that are neither strings, arrays nor decimals. */
  lemma ScalarEngineRoundTrip(c: Column, limits: Limits)
    requires c.dataType != StringType && !c.dataType.ArrayType? && !c.dataType.DecimalType?
    ensures Convert(Reconvert(c, limits).value, limits).Success?
    ensures var back := Convert(Reconvert(c, limits).value, limits).value;
            && back.dataType == Widen(c.dataType, limits)
            && (c.dataType == DateTimeType ==> back.scale == c.scale)
  {
    if c.dataType == DateType || c.dataType == DateTimeType || c.dataType == TimeType || c.dataType == BytesType {
      TemporalEngineRoundTrip(c, limits);
    } else {
      NumericEngineRoundTrip(c, limits);
    }
  }

  /** EngineRoundTrip for dates, times, datetimes and binary data. */
  lemma TemporalEngineRoundTrip(c: Column, limits: Limits)
    requires c.dataType == DateType || c.dataType == DateTimeType || c.dataType == TimeType || c.dataType == BytesType
    ensures Convert(Reconvert(c, limits).value, limits).Success?
    ensures var back := Convert(Reconvert(c, limits).value, limits).value;
            && back.dataType == Widen(c.dataType, limits)
            && (c.dataType == DateTimeType ==> back.scale == c.scale)
  {
    if c.dataType == DateType {
      var t := Define(c, Plain(DATEV2), None, None, None);
      assert Reconvert(c, limits) == Success(t);
      ConvertDates(t, limits);
    } else if c.dataType == DateTimeType {
      var t := if c.scale.None? then Define(c, Plain(DATETIMEV2), None, None, None)
               else Define(c, ColumnType(Known(DATETIMEV2), [c.scale.value]), None, None, c.scale);
      assert Reconvert(c, limits) == Success(t);
      ConvertDateTimes(t, limits);
    } else if c.dataType == TimeType {
      var t := Define(c, ColumnType(Known(VARCHAR), [8]), Some(8), None, None);
      assert Reconvert(c, limits) == Success(t);
      ConvertSizedStrings(t, limits);
    } else {
      var t := Define(c, Plain(STRING), None, None, None);
      assert Reconvert(c, limits) == Success(t);
      ConvertTexts(t, limits);
    }
  }

  /** EngineRoundTrip for null, boolean and the numeric types other than decimals. */
  lemma NumericEngineRoundTrip(c: Column, limits: Limits)
    requires || c.dataType == VoidType || c.dataType == BooleanType || c.dataType == ByteType || c.dataType == ShortType
             || c.dataType == IntType || c.dataType == LongType || c.dataType == FloatType || c.dataType == DoubleType
    ensures Convert(Reconvert(c, limits).value, limits).Success?
    ensures Convert(Reconvert(c, limits).value, limits).value.dataType == Widen(c.dataType, limits)
  {
    var t := Reconvert(c, limits).value;
    assert t.columnType.args == [];
    ConvertNumbers(t, limits);
  }

  /** The definition with t's metadata and the given column type, length, precision and scale. */
  function Restate(t: TypeDefine, columnType: ColumnType, length: Option<nat>, precision: Option<nat>, scale: Option<nat>): (r: TypeDefine)
    ensures r.name == t.name && r.nullable == t.nullable
    ensures r.defaultValue == t.defaultValue && r.comment == t.comment
    ensures r.columnType == columnType && r.dataType == columnType.typeName
  {
    TypeDefine(t.name, columnType, columnType.typeName, length, precision, scale, t.nullable, t.defaultValue, t.comment)
  }

  /**
   * The definition a known Doris definition comes back as after a trip to
   * the engine and back, stated name by name: "tinyint(1)" is BOOLEAN(1)
   * and other tinyints SMALLINT; LARGEINT is kept, or CHAR(39) when written
   * with arguments; decimals are DECIMALV3(precision, scale), the default
   * decimal when the precision would be 0; CHAR and VARCHAR are re-sized by
   * their length; STRING stays STRING; JSON and JSONB are JSONB, or STRING
   * when written with arguments; DATE and DATETIME take their V2 forms, a
   * datetime keeping its scale; every other name is kept.
   */
  function Canonical(t: TypeDefine, limits: Limits): (r: TypeDefine)
    requires t.columnType.typeName.Known?
    ensures r.name == t.name && r.nullable == t.nullable
    ensures r.defaultValue == t.defaultValue && r.comment == t.comment
    ensures r.dataType == r.columnType.typeName && r.dataType.Known?
  {
    var args := t.columnType.args;
    match t.columnType.typeName.name
    case BOOLEAN => Restate(t, Plain(BOOLEAN), Some(1), None, None)
    case TINYINT =>
      if args == [1] then Restate(t, Plain(BOOLEAN), Some(1), None, None)
      else Restate(t, Plain(SMALLINT), None, None, None)
    case LARGEINT =>
      if args == [] then Restate(t, Plain(LARGEINT), None, None, None)
      else Restate(t, ColumnType(Known(CHAR), [39]), Some(39), None, None)
    case DECIMAL => CanonicalDecimal(t, limits)
    case DECIMALV3 => CanonicalDecimal(t, limits)
    case CHAR => CanonicalSized(t, limits)
    case VARCHAR => CanonicalSized(t, limits)
    case JSON => Restate(t, Plain(if args == [] then JSONB else STRING), None, None, None)
    case JSONB => Restate(t, Plain(if args == [] then JSONB else STRING), None, None, None)
    case DATE => Restate(t, Plain(DATEV2), None, None, None)
    case DATETIME => CanonicalDateTime(t)
    case DATETIMEV2 => CanonicalDateTime(t)
    case _ => Restate(t, Plain(t.columnType.typeName.name), None, None, None)
  }

  /** A decimal after the trip: DECIMALV3 with convert's precision and scale, or the default decimal for precision 0. */
  function CanonicalDecimal(t: TypeDefine, limits: Limits): TypeDefine {
    var precision := if t.columnType.args == [] then limits.defaultPrecision else t.precision.GetOr(limits.defaultPrecision);
    var scale := t.scale.GetOr(limits.defaultScale);
    if precision == 0 then
      Restate(t, ColumnType(Known(DECIMALV3), [limits.defaultPrecision, limits.defaultScale]),
              None, Some(limits.defaultPrecision), Some(limits.defaultScale))
    else
      Restate(t, ColumnType(Known(DECIMALV3), [precision, scale]), None, Some(precision), Some(scale))
  }

  /** A CHAR or VARCHAR after the trip: CHAR(n) or VARCHAR(n) by the cut-offs, STRING without a length or above VARCHAR. */
  function CanonicalSized(t: TypeDefine, limits: Limits): TypeDefine {
    if t.length.None? || t.length.value == 0 || t.length.value > limits.varcharMax then
      Restate(t, Plain(STRING), None, None, None)
    else if t.length.value <= limits.charMax then
      Restate(t, ColumnType(Known(CHAR), [t.length.value]), t.length, None, None)
    else
      Restate(t, ColumnType(Known(VARCHAR), [t.length.value]), t.length, None, None)
  }

  /** A datetime after the trip: DATETIMEV2, with its scale as the argument when it has one. */
  function CanonicalDateTime(t: TypeDefine): TypeDefine {
    if t.scale.None? then Restate(t, Plain(DATETIMEV2), None, None, None)
    else Restate(t, ColumnType(Known(DATETIMEV2), [t.scale.value]), None, None, t.scale)
  }

  /** The definitions that survive a trip to the engine and back: known names, strings within the cut-off. */
  predicate RoundTrips(t: TypeDefine, limits: Limits) {
    && t.columnType.typeName.Known?
    && (t.columnType.typeName.name.CHAR? || t.columnType.typeName.name.VARCHAR? ==>
          t.length.None? || t.length.value <= limits.stringMax)
  }

  /** The canonical form is canonical: it survives the trip and is its own canonical form. */
  lemma CanonicalIsFixed(t: TypeDefine, limits: Limits)
    requires ValidLimits(limits)
    requires RoundTrips(t, limits)
    ensures RoundTrips(Canonical(t, limits), limits)
    ensures Canonical(Canonical(t, limits), limits) == Canonical(t, limits)
  {
    var name := t.columnType.typeName.name;
    if name.DECIMAL? || name.DECIMALV3? {
      DecimalIsFixed(t, limits);
    } else if name.CHAR? || name.VARCHAR? {
      SizedIsFixed(t, limits);
    } else if name.DATETIME? || name.DATETIMEV2? {
      DateTimeIsFixed(t, limits);
    } else if name.BOOLEAN? || name.TINYINT? || name.LARGEINT? || name.JSON? || name.JSONB? || name.DATE? {
      RenamedIsFixed(t, limits);
    } else {
      KeptIsFixed(t, limits);
    }
  }

  /** CanonicalIsFixed for decimals: DECIMALV3 with a precision keeps it. */
  lemma DecimalIsFixed(t: TypeDefine, limits: Limits)
    requires ValidLimits(limits)
    requires t.columnType.typeName == Known(DECIMAL) || t.columnType.typeName == Known(DECIMALV3)
    ensures RoundTrips(Canonical(t, limits), limits)
    ensures Canonical(Canonical(t, limits), limits) == Canonical(t, limits)
  {
    var u := CanonicalDecimal(t, limits);
    assert Canonical(t, limits) == u;
    assert Canonical(u, limits) == CanonicalDecimal(u, limits);
  }

  /** CanonicalIsFixed for CHAR and VARCHAR: the length picks the same class again. */
  lemma SizedIsFixed(t: TypeDefine, limits: Limits)
    requires ValidLimits(limits)
    requires t.columnType.typeName == Known(CHAR) || t.columnType.typeName == Known(VARCHAR)
    ensures RoundTrips(Canonical(t, limits), limits)
    ensures Canonical(Canonical(t, limits), limits) == Canonical(t, limits)
  {
    var u := CanonicalSized(t, limits);
    assert Canonical(t, limits) == u;
    if u.columnType.typeName != Known(STRING) {
      assert Canonical(u, limits) == CanonicalSized(u, limits);
    }
  }

  /** CanonicalIsFixed for datetimes: DATETIMEV2 keeps its scale. */
  lemma DateTimeIsFixed(t: TypeDefine, limits: Limits)
    requires t.columnType.typeName == Known(DATETIME) || t.columnType.typeName == Known(DATETIMEV2)
    ensures RoundTrips(Canonical(t, limits), limits)
    ensures Canonical(Canonical(t, limits), limits) == Canonical(t, limits)
  {
    var u := CanonicalDateTime(t);
    assert Canonical(t, limits) == u;
    assert Canonical(u, limits) == CanonicalDateTime(u);
  }

  /** CanonicalIsFixed for the names the trip renames: the new name is kept. */
  lemma RenamedIsFixed(t: TypeDefine, limits: Limits)
    requires ValidLimits(limits)
    requires t.columnType.typeName.Known?
    requires var name := t.columnType.typeName.name;
             name.BOOLEAN? || name.TINYINT? || name.LARGEINT? || name.JSON? || name.JSONB? || name.DATE?
    ensures RoundTrips(Canonical(t, limits), limits)
    ensures Canonical(Canonical(t, limits), limits) == Canonical(t, limits)
  {
    var u := Canonical(t, limits);
    var name := t.columnType.typeName.name;
    if name.LARGEINT? && t.columnType.args != [] {
      assert u == Restate(t, ColumnType(Known(CHAR), [39]), Some(39), None, None);
      assert Canonical(u, limits) == CanonicalSized(u, limits);
    } else if name.TINYINT? || name.BOOLEAN? {
      assert u.columnType.typeName.name.BOOLEAN? || u.columnType.typeName.name.SMALLINT?;
    } else {
      assert u.columnType == Plain(u.columnType.typeName.name) && u.length.None?;
    }
  }

  /** CanonicalIsFixed for the names the trip keeps. */
  lemma KeptIsFixed(t: TypeDefine, limits: Limits)
    requires t.columnType.typeName.Known?
    requires var name := t.columnType.typeName.name;
             !(name.DECIMAL? || name.DECIMALV3? || name.CHAR? || name.VARCHAR? || name.DATETIME? || name.DATETIMEV2?)
    requires var name := t.columnType.typeName.name;
             !(name.BOOLEAN? || name.TINYINT? || name.LARGEINT? || name.JSON? || name.JSONB? || name.DATE?)
    ensures RoundTrips(Canonical(t, limits), limits)
    ensures Canonical(Canonical(t, limits), limits) == Canonical(t, limits)
  {
    assert Canonical(t, limits) == Restate(t, Plain(t.columnType.typeName.name), None, None, None);
  }

  /**
   * Doris to engine to Doris: every known definition, with a CHAR or
   * VARCHAR length within the cut-off, converts and reconverts to its
   * canonical form.
   */
  lemma DorisRoundTrip(t: TypeDefine, limits: Limits)
    requires ValidLimits(limits) && StringLengthsAgree(limits)
    requires RoundTrips(t, limits)
    ensures Convert(t, limits).Success?
    ensures Reconvert(Convert(t, limits).value, limits) == Success(Canonical(t, limits))
  {
    var name := t.columnType.typeName.name;
    if name.CHAR? || name.VARCHAR? {
      SizedStringRoundTrip(t, limits);
    } else if name.LARGEINT? {
      LargeintRoundTrip(t, limits);
    } else if name.STRING? || name.JSON? || name.JSONB? {
      TextRoundTrip(t, limits);
    } else if name.DECIMAL? || name.DECIMALV3? {
      DecimalRoundTrip(t, limits);
    } else if ArrayElement(name).Some? {
      ArrayRoundTrip(t, limits);
    } else if name.DATE? || name.DATEV2? {
      DateRoundTrip(t, limits);
    } else if name.DATETIME? || name.DATETIMEV2? {
      DateTimeRoundTrip(t, limits);
    } else {
      NumericRoundTrip(t, limits);
    }
  }

  /** DorisRoundTrip for CHAR and VARCHAR: the length picks the class. */
  lemma SizedStringRoundTrip(t: TypeDefine, limits: Limits)
    requires ValidLimits(limits)
    requires t.columnType.typeName == Known(CHAR) || t.columnType.typeName == Known(VARCHAR)
    requires t.length.None? || t.length.value <= limits.stringMax
    ensures Convert(t, limits).Success?
    ensures Reconvert(Convert(t, limits).value, limits) == Success(Canonical(t, limits))
  {
    ConvertSizedStrings(t, limits);
    ReconvertSizedStrings(Build(t, StringType, t.length, None), limits);
    assert Canonical(t, limits) == CanonicalSized(t, limits);
    if t.length.Some? && t.length.value > 0 {
      StringClasses(t.length.value, limits);
    }
  }

  /** DorisRoundTrip for LARGEINT: kept when written without arguments, else CHAR(39). */
  lemma LargeintRoundTrip(t: TypeDefine, limits: Limits)
    requires ValidLimits(limits)
    requires t.columnType.typeName == Known(LARGEINT)
    ensures Convert(t, limits).Success?
    ensures Reconvert(Convert(t, limits).value, limits) == Success(Canonical(t, limits))
  {
    ConvertLargeint(t, limits);
    if t.columnType.args != [] {
      StringClasses(39, limits);
    }
  }

  /** DorisRoundTrip for STRING, JSON and JSONB: JSON is JSONB, anything written with arguments is STRING. */
  lemma TextRoundTrip(t: TypeDefine, limits: Limits)
    requires ValidLimits(limits) && StringLengthsAgree(limits)
    requires t.columnType.typeName == Known(STRING) || t.columnType.typeName == Known(JSON) || t.columnType.typeName == Known(JSONB)
    ensures Convert(t, limits).Success?
    ensures Reconvert(Convert(t, limits).value, limits) == Success(Canonical(t, limits))
  {
    ConvertTexts(t, limits);
    var c := Build(t, StringType, Some(limits.maxStringLength), None);
    if SpecialStringSource(c.sourceType) {
      ReconvertSpecialStrings(c, limits);
      assert Canonical(t, limits) == Restate(t, Plain(JSONB), None, None, None);
    } else {
      StringClasses(limits.maxStringLength, limits);
      ReconvertSizedStrings(c, limits);
      assert Canonical(t, limits) == Restate(t, Plain(STRING), None, None, None);
    }
  }

  /** DorisRoundTrip for DECIMAL and DECIMALV3. */
  lemma DecimalRoundTrip(t: TypeDefine, limits: Limits)
    requires t.columnType.typeName == Known(DECIMAL) || t.columnType.typeName == Known(DECIMALV3)
    ensures Convert(t, limits).Success?
    ensures Reconvert(Convert(t, limits).value, limits) == Success(Canonical(t, limits))
  {
    ConvertDecimals(t, limits);
    assert Canonical(t, limits) == CanonicalDecimal(t, limits);
  }

  /** DorisRoundTrip for the array names. */
  lemma ArrayRoundTrip(t: TypeDefine, limits: Limits)
    requires t.columnType.typeName.Known? && ArrayElement(t.columnType.typeName.name).Some?
    ensures Convert(t, limits).Success?
    ensures Reconvert(Convert(t, limits).value, limits) == Success(Canonical(t, limits))
  {
    ConvertArrays(t, limits);
    ArrayNamesInverse(t.columnType.typeName.name, ArrayElement(t.columnType.typeName.name).value);
  }

  /** DorisRoundTrip for DATE and DATEV2: both come back as DATEV2. */
  lemma DateRoundTrip(t: TypeDefine, limits: Limits)
    requires t.columnType.typeName == Known(DATE) || t.columnType.typeName == Known(DATEV2)
    ensures Convert(t, limits).Success?
    ensures Reconvert(Convert(t, limits).value, limits) == Success(Canonical(t, limits))
  {
    ConvertDates(t, limits);
    assert Canonical(t, limits) == Restate(t, Plain(DATEV2), None, None, None);
  }

  /** DorisRoundTrip for DATETIME and DATETIMEV2: both come back as DATETIMEV2 with their scale. */
  lemma DateTimeRoundTrip(t: TypeDefine, limits: Limits)
    requires t.columnType.typeName == Known(DATETIME) || t.columnType.typeName == Known(DATETIMEV2)
    ensures Convert(t, limits).Success?
    ensures Reconvert(Convert(t, limits).value, limits) == Success(Canonical(t, limits))
  {
    ConvertDateTimes(t, limits);
    assert Canonical(t, limits) == CanonicalDateTime(t);
  }

  /** DorisRoundTrip for NULL, BOOLEAN and the integer and floating-point names. */
  lemma NumericRoundTrip(t: TypeDefine, limits: Limits)
    requires t.columnType.typeName.Known?
    requires var name := t.columnType.typeName.name;
             || name.NULL? || name.BOOLEAN? || name.TINYINT? || name.SMALLINT?
             || name.INT? || name.BIGINT? || name.FLOAT? || name.DOUBLE?
    ensures Convert(t, limits).Success?
    ensures Reconvert(Convert(t, limits).value, limits) == Success(Canonical(t, limits))
  {
    ConvertNumbers(t, limits);
  }

  /** A definition that a trip to the engine and back returns unchanged. */
  predicate Fixpoint(t: TypeDefine, limits: Limits) {
    && RoundTrips(t, limits)
    && Convert(t, limits).Success?
    && Reconvert(Convert(t, limits).value, limits) == Success(t)
  }

  /** A definition that has made one trip to the engine and back is unchanged by a second. */
  lemma RoundTripStable(t: TypeDefine, limits: Limits)
    requires ValidLimits(limits) && StringLengthsAgree(limits)
    requires RoundTrips(t, limits)
    ensures Convert(t, limits).Success? && Reconvert(Convert(t, limits).value, limits).Success?
    ensures Fixpoint(Reconvert(Convert(t, limits).value, limits).value, limits)
  {
    DorisRoundTrip(t, limits);
    CanonicalIsFixed(t, limits);
    DorisRoundTrip(Canonical(t, limits), limits);
  }
}
