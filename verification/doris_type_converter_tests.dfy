/**
 * The converter's test cases, one lemma per test: each states, for every
 * choice of the constants the tests allow, the outcome the test asserts.
 */
module DorisTypeConverterTests {
  import opened Wrappers
  import opened DorisTypeConverter

  /** A definition as the tests build one: named "test", nullable, no length, precision, scale, default or comment. */
  function Definition(columnType: ColumnType, dataType: TypeName): TypeDefine {
    TypeDefine("test", columnType, dataType, None, None, None, true, None, None)
  }

  /** A column as the tests build one: named "test", nullable, no length, scale, default, comment or source type. */
  function Physical(dataType: EngineType): Column {
    Column("test", dataType, None, None, true, None, None, None)
  }

  /** The column convert gives a definition built by Definition: its name, nullability and source type. */
  function Converted(columnType: ColumnType, dataType: EngineType, columnLength: Option<nat>, scale: Option<nat>): Column {
    Column("test", dataType, columnLength, scale, true, None, None, Some(columnType))
  }

  /** The definition reconvert gives a column built by Physical: its name, nullability and data type. */
  function Reconverted(columnType: ColumnType, length: Option<nat>, precision: Option<nat>, scale: Option<nat>): TypeDefine {
    TypeDefine("test", columnType, columnType.typeName, length, precision, scale, true, None, None)
  }

  lemma TestConvertUnsupported(limits: Limits)
    ensures Convert(Definition(ColumnType(Unknown("aaa"), []), Unknown("aaa")), limits).Failure?
  {
  }

  lemma TestConvertNull(limits: Limits)
    ensures Convert(Definition(Plain(NULL), Known(NULL)).(defaultValue := Some("null"), comment := Some("null")), limits)
            == Success(Converted(Plain(NULL), VoidType, None, None).(defaultValue := Some("null"), comment := Some("null")))
  {
  }

  lemma TestConvertTinyint(limits: Limits)
    ensures Convert(Definition(ColumnType(Known(TINYINT), [1]), Known(TINYINT)).(length := Some(1)), limits)
            == Success(Converted(ColumnType(Known(TINYINT), [1]), BooleanType, None, None))
    ensures Convert(Definition(ColumnType(Known(TINYINT), [2]), Known(TINYINT)).(length := Some(2)), limits)
            == Success(Converted(ColumnType(Known(TINYINT), [2]), ShortType, None, None))
    ensures Convert(Definition(Plain(TINYINT), Known(TINYINT)), limits)
            == Success(Converted(Plain(TINYINT), ShortType, None, None))
  {
  }

  lemma TestConvertSmallint(limits: Limits)
    ensures Convert(Definition(Plain(SMALLINT), Known(SMALLINT)), limits)
            == Success(Converted(Plain(SMALLINT), ShortType, None, None))
  {
  }

  lemma TestConvertInt(limits: Limits)
    ensures Convert(Definition(Plain(INT), Known(INT)), limits) == Success(Converted(Plain(INT), IntType, None, None))
  {
  }

  lemma TestConvertBoolean(limits: Limits)
    ensures Convert(Definition(ColumnType(Known(TINYINT), [1]), Known(TINYINT)), limits)
            == Success(Converted(ColumnType(Known(TINYINT), [1]), BooleanType, None, None))
  {
  }

  lemma TestConvertBigint(limits: Limits)
    ensures Convert(Definition(Plain(BIGINT), Known(BIGINT)), limits)
            == Success(Converted(Plain(BIGINT), LongType, None, None))
  {
  }

  lemma TestConvertLargeint(limits: Limits)
    ensures Convert(Definition(Plain(LARGEINT), Unknown("bigint unsigned")), limits)
            == Success(Converted(Plain(LARGEINT), StringType, Some(39), None))
  {
  }

  lemma TestConvertFloat(limits: Limits)
    ensures Convert(Definition(Plain(FLOAT), Known(FLOAT)), limits)
            == Success(Converted(Plain(FLOAT), FloatType, None, None))
  {
  }

  lemma TestConvertDouble(limits: Limits)
    ensures Convert(Definition(Plain(DOUBLE), Known(DOUBLE)), limits)
            == Success(Converted(Plain(DOUBLE), DoubleType, None, None))
  {
  }

  lemma TestConvertDecimal(limits: Limits)
    ensures Convert(Definition(ColumnType(Known(DECIMAL), [18, 9]), Known(DECIMAL)).(precision := Some(27), scale := Some(9)), limits)
            == Success(Converted(ColumnType(Known(DECIMAL), [18, 9]), DecimalType(27, 9), Some(27), Some(9)))
    ensures Convert(Definition(Plain(DECIMALV3), Known(DECIMAL)).(precision := Some(9), scale := Some(2)), limits)
            == Success(Converted(Plain(DECIMALV3), DecimalType(limits.defaultPrecision, 2), Some(9), Some(2)))
    ensures Convert(Definition(ColumnType(Known(DECIMALV3), [36, 2]), Known(DECIMAL)).(precision := Some(38), scale := Some(2)), limits)
            == Success(Converted(ColumnType(Known(DECIMALV3), [36, 2]), DecimalType(38, 2), Some(38), Some(2)))
  {
  }

  lemma TestConvertChar(limits: Limits)
    ensures Convert(Definition(ColumnType(Known(CHAR), [2]), Known(CHAR)).(length := Some(2)), limits)
            == Success(Converted(ColumnType(Known(CHAR), [2]), StringType, Some(2), None))
    ensures Convert(Definition(ColumnType(Known(VARCHAR), [2]), Known(VARCHAR)).(length := Some(2)), limits)
            == Success(Converted(ColumnType(Known(VARCHAR), [2]), StringType, Some(2), None))
  {
  }

  lemma TestConvertString(limits: Limits)
    ensures Convert(Definition(Plain(STRING), Known(VARCHAR)), limits)
            == Success(Converted(Plain(STRING), StringType, Some(limits.maxStringLength), None))
  {
  }

  lemma TestConvertJson(limits: Limits)
    ensures Convert(Definition(Plain(JSON), Known(JSON)), limits)
            == Success(Converted(Plain(JSON), StringType, Some(limits.maxStringLength), None))
    ensures Convert(Definition(Plain(JSONB), Known(JSONB)), limits)
            == Success(Converted(Plain(JSONB), StringType, Some(limits.maxStringLength), None))
  {
  }

  lemma TestConvertDate(limits: Limits)
    ensures Convert(Definition(Plain(DATE), Known(DATE)), limits) == Success(Converted(Plain(DATE), DateType, None, None))
  {
  }

  lemma TestConvertDateV2(limits: Limits)
    ensures Convert(Definition(Plain(DATEV2), Known(DATE)), limits)
            == Success(Converted(Plain(DATEV2), DateType, None, None))
  {
  }

  lemma TestConvertDatetime(limits: Limits)
    ensures Convert(Definition(Plain(DATETIME), Known(DATETIME)), limits)
            == Success(Converted(Plain(DATETIME), DateTimeType, None, None))
    ensures Convert(Definition(ColumnType(Known(DATETIMEV2), [3]), Known(DATETIME)).(scale := Some(3)), limits)
            == Success(Converted(ColumnType(Known(DATETIMEV2), [3]), DateTimeType, None, Some(3)))
  {
    ConvertDateTimes(Definition(Plain(DATETIME), Known(DATETIME)), limits);
    ConvertDateTimes(Definition(ColumnType(Known(DATETIMEV2), [3]), Known(DATETIME)).(scale := Some(3)), limits);
  }

  lemma TestStringTooLong(limits: Limits)
    requires ValidLimits(limits)
    ensures Reconvert(Physical(StringType).(columnLength := Some(4294967295)), limits)
            == Failure(StringTooLong(4294967295))
  {
  }

  lemma TestReconvertNull(limits: Limits)
    ensures Reconvert(Physical(VoidType).(defaultValue := Some("null"), comment := Some("null")), limits)
            == Success(Reconverted(Plain(NULL), None, None, None).(defaultValue := Some("null"), comment := Some("null")))
  {
  }

  lemma TestReconvertBoolean(limits: Limits)
    ensures Reconvert(Physical(BooleanType), limits) == Success(Reconverted(Plain(BOOLEAN), Some(1), None, None))
  {
  }

  lemma TestReconvertIntegers(limits: Limits)
    ensures Reconvert(Physical(ByteType), limits) == Success(Reconverted(Plain(TINYINT), None, None, None))
    ensures Reconvert(Physical(ShortType), limits) == Success(Reconverted(Plain(SMALLINT), None, None, None))
    ensures Reconvert(Physical(IntType), limits) == Success(Reconverted(Plain(INT), None, None, None))
    ensures Reconvert(Physical(LongType), limits) == Success(Reconverted(Plain(BIGINT), None, None, None))
  {
  }

  lemma TestReconvertFloats(limits: Limits)
    ensures Reconvert(Physical(FloatType), limits) == Success(Reconverted(Plain(FLOAT), None, None, None))
    ensures Reconvert(Physical(DoubleType), limits) == Success(Reconverted(Plain(DOUBLE), None, None, None))
  {
  }

  lemma TestReconvertDecimal(limits: Limits)
    ensures Reconvert(Physical(DecimalType(0, 0)), limits)
            == Success(Reconverted(ColumnType(Known(DECIMALV3), [limits.defaultPrecision, limits.defaultScale]),
                                   None, Some(limits.defaultPrecision), Some(limits.defaultScale)))
    ensures Reconvert(Physical(DecimalType(10, 2)), limits)
            == Success(Reconverted(ColumnType(Known(DECIMALV3), [10, 2]), None, Some(10), Some(2)))
  {
  }

  lemma TestReconvertBytes(limits: Limits)
    ensures Reconvert(Physical(BytesType), limits) == Success(Reconverted(Plain(STRING), None, None, None))
    ensures Reconvert(Physical(BytesType).(columnLength := Some(255)), limits)
            == Success(Reconverted(Plain(STRING), None, None, None))
    ensures Reconvert(Physical(BytesType).(columnLength := Some(65535)), limits)
            == Success(Reconverted(Plain(STRING), None, None, None))
    ensures Reconvert(Physical(BytesType).(columnLength := Some(16777215)), limits)
            == Success(Reconverted(Plain(STRING), None, None, None))
    ensures Reconvert(Physical(BytesType).(columnLength := Some(4294967295)), limits)
            == Success(Reconverted(Plain(STRING), None, None, None))
  {
  }

  lemma TestReconvertString(limits: Limits)
    requires ValidLimits(limits)
    ensures Reconvert(Physical(StringType).(sourceType := Some(Plain(LARGEINT))), limits)
            == Success(Reconverted(Plain(LARGEINT), None, None, None))
    ensures Reconvert(Physical(StringType).(sourceType := Some(Plain(JSON))), limits)
            == Success(Reconverted(Plain(JSONB), None, None, None))
    ensures Reconvert(Physical(StringType).(sourceType := Some(Plain(JSONB))), limits)
            == Success(Reconverted(Plain(JSONB), None, None, None))
    ensures Reconvert(Physical(StringType).(columnLength := Some(255)), limits)
            == Success(Reconverted(ColumnType(Known(CHAR), [255]), Some(255), None, None))
    ensures Reconvert(Physical(StringType).(columnLength := Some(65535)), limits)
            == Success(Reconverted(ColumnType(Known(VARCHAR), [65535]), Some(65535), None, None))
    ensures Reconvert(Physical(StringType).(columnLength := Some(16777215)), limits)
            == Success(Reconverted(Plain(STRING), None, None, None))
  {
    StringClasses(255, limits);
    StringClasses(65535, limits);
    StringClasses(16777215, limits);
  }

  lemma TestReconvertDate(limits: Limits)
    ensures Reconvert(Physical(DateType), limits) == Success(Reconverted(Plain(DATEV2), None, None, None))
  {
  }

  lemma TestReconvertTime(limits: Limits)
    ensures Reconvert(Physical(TimeType), limits)
            == Success(Reconverted(ColumnType(Known(VARCHAR), [8]), Some(8), None, None))
    ensures Reconvert(Physical(TimeType).(scale := Some(3)), limits)
            == Success(Reconverted(ColumnType(Known(VARCHAR), [8]), Some(8), None, None))
  {
  }

  lemma TestReconvertDatetime(limits: Limits)
    ensures Reconvert(Physical(DateTimeType), limits) == Success(Reconverted(Plain(DATETIMEV2), None, None, None))
    ensures Reconvert(Physical(DateTimeType).(scale := Some(3)), limits)
            == Success(Reconverted(ColumnType(Known(DATETIMEV2), [3]), None, None, Some(3)))
  {
  }

  /** Each (element type, Doris array type) pair the test lists. */
  lemma TestReconvertArray(limits: Limits)
    ensures forall p :: p in [(BooleanType, BOOLEAN_ARRAY), (ByteType, TINYINT_ARRAY), (StringType, STRING_ARRAY),
                              (ShortType, SMALLINT_ARRAY), (IntType, INT_ARRAY), (LongType, BIGINT_ARRAY),
                              (FloatType, FLOAT_ARRAY), (DoubleType, DOUBLE_ARRAY)] ==>
              Reconvert(Physical(ArrayType(p.0)), limits) == Success(Reconverted(Plain(p.1), None, None, None))
  {
    forall p | p in [(BooleanType, BOOLEAN_ARRAY), (ByteType, TINYINT_ARRAY), (StringType, STRING_ARRAY),
                     (ShortType, SMALLINT_ARRAY), (IntType, INT_ARRAY), (LongType, BIGINT_ARRAY),
                     (FloatType, FLOAT_ARRAY), (DoubleType, DOUBLE_ARRAY)]
      ensures Reconvert(Physical(ArrayType(p.0)), limits) == Success(Reconverted(Plain(p.1), None, None, None))
    {
      ReconvertArrays(Physical(ArrayType(p.0)), limits);
    }
  }
}
