/**
 * The SQL Server converter for `byte` fields. SQL Server's TINYINT is
 * unsigned (0..255), so a Java `byte` is stored in a SMALLINT column as a
 * `short`; on the way back the `short` is clamped into the byte range, so a
 * read never fails because of the stored value.
 */
module ByteFieldConverter {
  import opened Wrappers
  import opened JavaLang
  import opened OrmLiteField

  function Distance(a: int, b: int): (d: nat) {
    if a <= b then b - a else a - b
  }

  /** `b` is a byte value closest to `s` among all byte values. */
  ghost predicate IsNearestByte(b: JByte, s: int) {
    forall c: JByte :: Distance(b, s) <= Distance(c, s)
  }

  /** The converter declares the BYTE SQL type. */
  function GetSqlType(): (t: SqlType)
    ensures t == BYTE
  {
    BYTE
  }

  /** The converter is not a stream type. */
  function IsStreamType(): (b: bool)
    ensures !b
  {
    false
  }

  /** A column default is parsed as a `short`, with no clamp and no byte-range check. */
  function ParseDefaultString(fieldType: FieldType, defaultStr: string): (r: Result<JShort, JavaException>)
    ensures r.Success? ==> ParseInt(defaultStr) == Success(r.value)
    ensures r.Failure? ==> r.error.NumberFormatException?
  {
    ParseShort(defaultStr)
  }

  /**
   * Casts the argument to `Byte`, unboxes it and widens it to a `short`. An
   * argument that is not a `Byte` fails the cast (ClassCastException); a
   * null passes the cast and fails the unboxing (NullPointerException).
   */
  function JavaToSqlArg(fieldType: FieldType, javaObject: JavaObject): (r: Result<JShort, JavaException>)
    ensures r.Success? <==> javaObject.BoxedByte?
    ensures r.Success? ==> r.value == javaObject.byteValue
    ensures javaObject.Null? ==> r == Failure(NullPointerException)
    ensures !javaObject.Null? && !javaObject.BoxedByte? ==> r == Failure(ClassCastException)
  {
    match javaObject
    case BoxedByte(b) => Success(b)
    case Null => Failure(NullPointerException)
    case _ => Failure(ClassCastException)
  }

  /** A boxed `Short` is not a `Byte`: the cast throws. */
  lemma BoxedShortRejected(fieldType: FieldType, s: JShort)
    ensures JavaToSqlArg(fieldType, BoxedShort(s)) == Failure(ClassCastException)
  {
  }

  /**
   * Turns the `short` read from the column back into a `byte`, saturating
   * at the byte range: the result is the byte nearest to the stored value.
   */
  function ResultToJava(fieldType: FieldType, shortVal: JShort): (r: JByte)
    ensures IsNearestByte(r, shortVal)
  {
    if shortVal < BYTE_MIN_VALUE then BYTE_MIN_VALUE
    else if shortVal > BYTE_MAX_VALUE then BYTE_MAX_VALUE
    else shortVal as JByte
  }

  /** There is only one nearest byte, so the nearest-byte property pins the result down. */
  lemma NearestByteUnique(b1: JByte, b2: JByte, s: int)
    requires IsNearestByte(b1, s) && IsNearestByte(b2, s)
    ensures b1 == b2
  {
    assert Distance(b1, s) <= Distance(b2, s) && Distance(b2, s) <= Distance(b1, s);
    var lo: JByte := BYTE_MIN_VALUE;
    var hi: JByte := BYTE_MAX_VALUE;
    if s < BYTE_MIN_VALUE {
      assert Distance(b1, s) <= Distance(lo, s);
      assert Distance(b2, s) <= Distance(lo, s);
    } else if s > BYTE_MAX_VALUE {
      assert Distance(b1, s) <= Distance(hi, s);
      assert Distance(b2, s) <= Distance(hi, s);
    } else {
      var m: JByte := s;
      assert Distance(b1, s) <= Distance(m, s);
      assert Distance(b2, s) <= Distance(m, s);
    }
  }

  /** Every byte survives a write followed by a read unchanged. */
  lemma RoundTrip(fieldType: FieldType, v: JByte)
    ensures JavaToSqlArg(fieldType, BoxedByte(v)).Success?
    ensures ResultToJava(fieldType, JavaToSqlArg(fieldType, BoxedByte(v)).value) == v
  {
    var stored := JavaToSqlArg(fieldType, BoxedByte(v)).value;
    var exact: JByte := v;
    assert Distance(exact, stored) == 0;
    NearestByteUnique(ResultToJava(fieldType, stored), exact, stored);
  }

  /** Stored values below the byte range read as -128, values above it as 127. */
  lemma Saturation(fieldType: FieldType, shortVal: JShort)
    ensures shortVal < BYTE_MIN_VALUE ==> ResultToJava(fieldType, shortVal) == BYTE_MIN_VALUE
    ensures shortVal > BYTE_MAX_VALUE ==> ResultToJava(fieldType, shortVal) == BYTE_MAX_VALUE
    ensures BYTE_MIN_VALUE <= shortVal <= BYTE_MAX_VALUE ==> ResultToJava(fieldType, shortVal) == shortVal
  {
    var r := ResultToJava(fieldType, shortVal);
    if shortVal < BYTE_MIN_VALUE {
      var lo: JByte := BYTE_MIN_VALUE;
      assert Distance(r, shortVal) <= Distance(lo, shortVal);
    } else if shortVal > BYTE_MAX_VALUE {
      var hi: JByte := BYTE_MAX_VALUE;
      assert Distance(r, shortVal) <= Distance(hi, shortVal);
    } else {
      var m: JByte := shortVal;
      assert Distance(r, shortVal) <= Distance(m, shortVal);
    }
  }

  /** Reading preserves the order of stored values. */
  lemma Monotone(fieldType: FieldType, s1: JShort, s2: JShort)
    requires s1 <= s2
    ensures ResultToJava(fieldType, s1) <= ResultToJava(fieldType, s2)
  {
    Saturation(fieldType, s1);
    Saturation(fieldType, s2);
  }

  /** Writing back what was read and reading it again gives the same byte. */
  lemma ReadWriteReadStable(fieldType: FieldType, shortVal: JShort)
    ensures var b := ResultToJava(fieldType, shortVal);
            JavaToSqlArg(fieldType, BoxedByte(b)) == Success(b as JShort) &&
            ResultToJava(fieldType, b as JShort) == b
  {
    RoundTrip(fieldType, ResultToJava(fieldType, shortVal));
  }

  /** A default written in decimal parses back to the same `short`. */
  lemma DefaultStringRoundTrip(fieldType: FieldType, v: JShort)
    ensures ParseDefaultString(fieldType, IntToDecimal(v)) == Success(v)
  {
    ParseShortOfDecimal(v);
  }

  /** A default outside the byte range is accepted as it is, not clamped. */
  lemma DefaultStringNotClamped(fieldType: FieldType)
    ensures ParseDefaultString(fieldType, "200") == Success(200)
    ensures ParseDefaultString(fieldType, "40000").Failure?
  {
    assert NatToDecimal(20) == "20" by { assert NatToDecimal(2) == "2"; }
    assert IntToDecimal(200) == "200";
    DefaultStringRoundTrip(fieldType, 200);
    assert NatToDecimal(400) == "400" by {
      assert NatToDecimal(40) == "40" by { assert NatToDecimal(4) == "4"; }
    }
    assert IntToDecimal(40000) == "40000" by { assert NatToDecimal(4000) == "4000"; }
    ParseIntOfDecimal(40000);
  }
}
