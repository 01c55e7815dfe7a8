/** src/Adapter/PdoAdapter.php, the parts that do not talk to a database:
    option validation, the driver dispatch of `setPdo`, the attribute merge of
    `createPdoConnection`, the lazily created connection handle and MySQL value
    escaping. The calls an adapter accepts (src/Adapter/AdapterInterface.php)
    are named by `AdapterCall`. */
module Adapter {
  import opened Results
  import opened PhpArray
  import opened PhpString
  import opened Values
  import opened Exceptions
  import opened Constants

  /** The operations of AdapterInterface, with their arguments. */
  datatype AdapterCall =
    | FetchAll(query: string, params: Params)
    | FetchOne(query: string, params: Params)
    | FetchValue(query: string, params: Params)
    | FetchKeyPairs(query: string, params: Params)
    | FetchColumn(query: string, params: Params, columnIndex: int)
    | FetchLazy(query: string, params: Params)
    | Execute(query: string, params: Params)
    | BeginTransaction
    | Commit
    | RollBack
    | GetLastInsertId(name: Option<string>)
  {
    predicate IsRead() {
      FetchAll? || FetchOne? || FetchValue? || FetchKeyPairs? || FetchColumn? || FetchLazy?
    }
  }

  // PDO's attribute constants.
  const ATTR_ERRMODE: int := 3
  const ATTR_PERSISTENT: int := 12
  const ERRMODE_WARNING: int := 1
  const ERRMODE_EXCEPTION: int := 2
  const MYSQL_ATTR_INIT_COMMAND: int := 1002

  /** An array of PDO attributes, keyed by attribute constant. */
  type Attributes = seq<Entry<Scalar>>

  // ---------------------------------------------------------------------------
  // Option validation

  /** `isset($options[$key])`: present and not null. */
  predicate IsSet(options: Options, key: string) {
    var v := Get(options, StrKey(key));
    v.Some? && v.value != Setting(Null)
  }

  /** The options mysql, pgsql and sqlsrv require, in the order they are checked. */
  const STANDARD_OPTIONS: seq<string> := ["host", "port", "dbname", "username", "password"]

  function MissingParameter(key: string): DbError {
    ConnectionError("Missing configuration parameter: " + key)
  }

  /** `validateStandardDatabaseOptions($options)` */
  function ValidateStandardDatabaseOptions(options: Options): (r: Option<DbError>)
    ensures r.None? <==> forall j :: 0 <= j < |STANDARD_OPTIONS| ==> IsSet(options, STANDARD_OPTIONS[j])
    ensures r.Some? ==> exists j :: 0 <= j < |STANDARD_OPTIONS| && !IsSet(options, STANDARD_OPTIONS[j]) &&
                          (forall i :: 0 <= i < j ==> IsSet(options, STANDARD_OPTIONS[i])) &&
                          r.value == MissingParameter(STANDARD_OPTIONS[j])
  {
    assert STANDARD_OPTIONS[0] == "host" && STANDARD_OPTIONS[1] == "port" && STANDARD_OPTIONS[2] == "dbname";
    assert STANDARD_OPTIONS[3] == "username" && STANDARD_OPTIONS[4] == "password";
    if !IsSet(options, "host") then Some(MissingParameter("host"))
    else if !IsSet(options, "port") then Some(MissingParameter("port"))
    else if !IsSet(options, "dbname") then Some(MissingParameter("dbname"))
    else if !IsSet(options, "username") then Some(MissingParameter("username"))
    else if !IsSet(options, "password") then Some(MissingParameter("password"))
    else None
  }

  /** `validateSqliteOptions($options)`: a missing `filepath` is reported with
      the message of a missing password. */
  function ValidateSqliteOptions(options: Options): (r: Option<DbError>)
    ensures r.None? <==> IsSet(options, "filepath")
    ensures r.Some? ==> r.value == MissingParameter("password")
  {
    if !IsSet(options, "filepath") then Some(MissingParameter("password")) else None
  }

  /** `validateAdapterOptions($driver, $options)`: an unknown driver is not
      validated here. */
  function ValidateAdapterOptions(driver: string, options: Options): (r: Option<DbError>)
    ensures driver in {DRIVER_MYSQL, DRIVER_PGSQL, DRIVER_SQLSRV} ==> r == ValidateStandardDatabaseOptions(options)
    ensures driver == DRIVER_SQLITE ==> r == ValidateSqliteOptions(options)
    ensures driver !in {DRIVER_MYSQL, DRIVER_PGSQL, DRIVER_SQLSRV, DRIVER_SQLITE} ==> r == None
  {
    if driver == DRIVER_MYSQL || driver == DRIVER_PGSQL || driver == DRIVER_SQLSRV then
      ValidateStandardDatabaseOptions(options)
    else if driver == DRIVER_SQLITE then
      ValidateSqliteOptions(options)
    else
      None
  }

  // ---------------------------------------------------------------------------
  // Connecting

  /** What a `new PDO(...)` call received: the driver it was opened for, the
      user name and password if both were given, and the attribute array. The
      DSN text is not modelled. */
  datatype PdoHandle = PdoHandle(driver: string, credentials: Option<(OptionValue, OptionValue)>, attributes: Attributes)

  /** `$options['pdo_attributes']` when it is set and an array, else nothing. */
  function PdoAttributes(options: Options): Attributes {
    var setting: Option<OptionValue> := Get(options, StrKey("pdo_attributes"));
    match setting
    case Some(ArraySetting(attributes)) => attributes
    case _ => []
  }

  const DEFAULT_PDO_OPTIONS: Attributes := [Entry(IntKey(ATTR_ERRMODE), Int(ERRMODE_EXCEPTION))]

  /** The attribute array of `createPdoConnection`: the default error mode is
      put in front of the driver's own defaults, and the caller's
      `pdo_attributes` in front of both. */
  function MergeAttributes(options: Options, driverOptions: Attributes): Attributes {
    var withDefaults := Union(DEFAULT_PDO_OPTIONS, driverOptions);
    var setting: Option<OptionValue> := Get(options, StrKey("pdo_attributes"));
    match setting
    case Some(ArraySetting(attributes)) => Union(attributes, withDefaults)
    case _ => withDefaults
  }

  /** `pdo_attributes` override everything; otherwise the error mode is
      ERRMODE_EXCEPTION whatever the driver defaults say; otherwise the driver
      default applies. */
  lemma AttributePrecedence(options: Options, driverOptions: Attributes, attribute: Key)
    ensures Get(MergeAttributes(options, driverOptions), attribute) ==
      if attribute in Keys(PdoAttributes(options)) then Get(PdoAttributes(options), attribute)
      else if attribute == IntKey(ATTR_ERRMODE) then Some(Int(ERRMODE_EXCEPTION))
      else Get(driverOptions, attribute)
  {
    var withDefaults := Union(DEFAULT_PDO_OPTIONS, driverOptions);
    GetUnion(DEFAULT_PDO_OPTIONS, driverOptions, attribute);
    GetUnion(PdoAttributes(options), withDefaults, attribute);
    assert Keys(DEFAULT_PDO_OPTIONS) == [IntKey(ATTR_ERRMODE)];
  }

  /** The case from the library's test: `pdo_attributes` asking for a
      persistent connection and warnings win over the defaults. */
  lemma AttributesExample(options: Options)
    requires Get(options, StrKey("pdo_attributes")) ==
      Some(ArraySetting([Entry(IntKey(ATTR_PERSISTENT), Bool(true)), Entry(IntKey(ATTR_ERRMODE), Int(ERRMODE_WARNING))]))
    ensures var attributes := MergeAttributes(options, MySqlDriverOptions());
      Get(attributes, IntKey(ATTR_PERSISTENT)) == Some(Bool(true)) &&
      Get(attributes, IntKey(ATTR_ERRMODE)) == Some(Int(ERRMODE_WARNING)) &&
      Get(attributes, IntKey(MYSQL_ATTR_INIT_COMMAND)) == Some(Str("SET NAMES utf8"))
  {
    var attributes := [Entry(IntKey(ATTR_PERSISTENT), Bool(true)), Entry(IntKey(ATTR_ERRMODE), Int(ERRMODE_WARNING))];
    assert PdoAttributes(options) == attributes;
    assert Keys(attributes) == [IntKey(ATTR_PERSISTENT), IntKey(ATTR_ERRMODE)];
    assert attributes[1..][0].key == IntKey(ATTR_ERRMODE);
    assert Get(attributes, IntKey(ATTR_ERRMODE)) == Some(Int(ERRMODE_WARNING));
    AttributePrecedence(options, MySqlDriverOptions(), IntKey(ATTR_PERSISTENT));
    AttributePrecedence(options, MySqlDriverOptions(), IntKey(ATTR_ERRMODE));
    AttributePrecedence(options, MySqlDriverOptions(), IntKey(MYSQL_ATTR_INIT_COMMAND));
  }

  /** The user name and password passed to PDO, when both are set. */
  function Credentials(options: Options): Option<(OptionValue, OptionValue)> {
    if IsSet(options, "username") && IsSet(options, "password") then
      Some((Get(options, StrKey("username")).value, Get(options, StrKey("password")).value))
    else
      None
  }

  /** `createPdoConnection($dsn, $options, $driverOptions)`; `connectFault` is
      the message of the PDOException the driver raises, if it does. */
  function CreatePdoConnection(driver: string, options: Options, driverOptions: Attributes,
                               connectFault: Option<string>): Result<PdoHandle, DbError> {
    var attributes := MergeAttributes(options, driverOptions);
    if connectFault.Some? then Failure(ConnectionError(connectFault.value))
    else Success(PdoHandle(driver, Credentials(options), attributes))
  }

  /** The driver options of `setMySqlConnection`. */
  function MySqlDriverOptions(): Attributes {
    [Entry(IntKey(MYSQL_ATTR_INIT_COMMAND), Str("SET NAMES utf8"))]
  }

  /** `setPdo($driver, $options)`, as the handle it stores or the exception it
      raises: options are validated first, then the driver picks the
      connection; sqlite connects without the options. */
  function Connect(driver: string, options: Options, connectFault: Option<string>): (r: Result<PdoHandle, DbError>)
    ensures r.Success? ==> driver in {DRIVER_MYSQL, DRIVER_PGSQL, DRIVER_SQLSRV, DRIVER_SQLITE} && r.value.driver == driver
    ensures r.Success? ==> connectFault.None? && ValidateAdapterOptions(driver, options).None?
    ensures ValidateAdapterOptions(driver, options).Some? ==> r == Failure(ValidateAdapterOptions(driver, options).value)
    ensures driver !in {DRIVER_MYSQL, DRIVER_PGSQL, DRIVER_SQLSRV, DRIVER_SQLITE} ==>
              r == Failure(ConnectionError("Unknown PDO Driver: " + driver))
    ensures driver in {DRIVER_MYSQL, DRIVER_PGSQL, DRIVER_SQLSRV, DRIVER_SQLITE} &&
            ValidateAdapterOptions(driver, options).None? ==>
              if connectFault.Some? then r == Failure(ConnectionError(connectFault.value)) else r.Success?
  {
    var invalid := ValidateAdapterOptions(driver, options);
    if invalid.Some? then Failure(invalid.value)
    else if driver == DRIVER_MYSQL then CreatePdoConnection(driver, options, MySqlDriverOptions(), connectFault)
    else if driver == DRIVER_PGSQL then CreatePdoConnection(driver, options, [], connectFault)
    else if driver == DRIVER_SQLITE then CreatePdoConnection(driver, [], [], connectFault)
    else if driver == DRIVER_SQLSRV then CreatePdoConnection(driver, options, [], connectFault)
    else Failure(ConnectionError("Unknown PDO Driver: " + driver))
  }

  /** Every connection made is in ERRMODE_EXCEPTION unless `pdo_attributes`
      says otherwise; sqlite ignores `pdo_attributes` and credentials and gets
      the default attributes only. */
  lemma ConnectErrorMode(driver: string, options: Options, connectFault: Option<string>)
    requires Connect(driver, options, connectFault).Success?
    ensures var handle := Connect(driver, options, connectFault).value;
      && (driver == DRIVER_SQLITE || IntKey(ATTR_ERRMODE) !in Keys(PdoAttributes(options)) ==>
            Get(handle.attributes, IntKey(ATTR_ERRMODE)) == Some(Int(ERRMODE_EXCEPTION)))
      && (driver == DRIVER_SQLITE ==> handle.credentials == None && handle.attributes == DEFAULT_PDO_OPTIONS)
      && (driver != DRIVER_SQLITE ==> handle.credentials == Credentials(options))
      && (driver == DRIVER_MYSQL ==> handle.attributes == MergeAttributes(options, MySqlDriverOptions()))
      && (driver == DRIVER_PGSQL || driver == DRIVER_SQLSRV ==> handle.attributes == MergeAttributes(options, []))
  {
    if driver == DRIVER_SQLITE {
      AttributePrecedence([], [], IntKey(ATTR_ERRMODE));
      UnionEmpty(DEFAULT_PDO_OPTIONS);
    } else if driver == DRIVER_MYSQL {
      AttributePrecedence(options, MySqlDriverOptions(), IntKey(ATTR_ERRMODE));
    } else {
      AttributePrecedence(options, [], IntKey(ATTR_ERRMODE));
    }
  }

  // ---------------------------------------------------------------------------
  // MySQL escaping

  /** The characters `escapeValue` looks for, in the order it replaces them:
      backslash, NUL, line feed, carriage return, quote, double quote, Ctrl-Z. */
  const MYSQL_SEARCH_CHARS: seq<char> := ['\\', '\0', '\n', '\r', '\'', '"', '\U{1A}']
  const MYSQL_SEARCHES: seq<string> := ["\\", "\0", "\n", "\r", "'", "\"", "\U{1A}"]
  const MYSQL_REPLACEMENTS: seq<string> := ["\\\\", "\\0", "\\n", "\\r", "\\'", "\\\"", "\\Z"]

  /** The `str_replace` of `escapeValue` for MySQL. */
  function MySqlEscape(value: string): string {
    StrReplaceArrays(MYSQL_SEARCHES, MYSQL_REPLACEMENTS, value)
  }

  /** Each character escaped on its own. */
  function EscapeChars(value: string): string {
    SubstAll(MYSQL_SEARCH_CHARS, MYSQL_REPLACEMENTS, value)
  }

  /** The escape table: each special character becomes a backslash and a
      letter or itself; every other character is kept. */
  lemma EscapeCharTable(x: char)
    ensures SubstChar(MYSQL_SEARCH_CHARS, MYSQL_REPLACEMENTS, x) ==
      if x == '\\' then "\\\\"
      else if x == '\0' then "\\0"
      else if x == '\n' then "\\n"
      else if x == '\r' then "\\r"
      else if x == '\'' then "\\'"
      else if x == '"' then "\\\""
      else if x == '\U{1A}' then "\\Z"
      else [x]
  {
    var cs, rs := MYSQL_SEARCH_CHARS, MYSQL_REPLACEMENTS;
    if x == '\\' {
      SubstCharFirst(cs, rs, x, 0);
    } else if x == '\0' {
      SubstCharFirst(cs, rs, x, 1);
    } else if x == '\n' {
      SubstCharFirst(cs, rs, x, 2);
    } else if x == '\r' {
      SubstCharFirst(cs, rs, x, 3);
    } else if x == '\'' {
      SubstCharFirst(cs, rs, x, 4);
    } else if x == '"' {
      SubstCharFirst(cs, rs, x, 5);
    } else if x == '\U{1A}' {
      SubstCharFirst(cs, rs, x, 6);
    } else {
      SubstCharUntouched(cs, rs, x);
    }
  }

  /** Backslashes are escaped first and no replacement holds a character that
      is searched for after it, so the seven replacements in a row escape every
      character exactly once. */
  lemma MySqlEscapeIsPerCharacter(value: string)
    ensures MySqlEscape(value) == EscapeChars(value)
  {
    assert MYSQL_SEARCHES == CharSearches(MYSQL_SEARCH_CHARS);
    assert NoLaterSearch(MYSQL_SEARCH_CHARS, MYSQL_REPLACEMENTS);
    SequentialCharReplace(MYSQL_SEARCH_CHARS, MYSQL_REPLACEMENTS, value);
  }

  /** The character a backslash sequence stands for. */
  function UnescapeChar(c: char): char {
    if c == '0' then '\0'
    else if c == 'n' then '\n'
    else if c == 'r' then '\r'
    else if c == 'Z' then '\U{1A}'
    else c
  }

  /** The inverse of the seven escapes: a backslash and the character after it
      stand for the character `UnescapeChar` gives. */
  function Unescape(s: string): string {
    if s == [] then []
    else if s[0] == '\\' && |s| >= 2 then [UnescapeChar(s[1])] + Unescape(s[2..])
    else [s[0]] + Unescape(s[1..])
  }

  lemma UnescapeBackslash(d: char, rest: string)
    ensures Unescape(['\\', d] + rest) == [UnescapeChar(d)] + Unescape(rest)
  {
    var s := ['\\', d] + rest;
    assert s[0] == '\\' && s[1] == d && s[2..] == rest;
  }

  lemma UnescapePlain(x: char, rest: string)
    requires x != '\\'
    ensures Unescape([x] + rest) == [x] + Unescape(rest)
  {
    var s := [x] + rest;
    assert s[0] == x && s[1..] == rest;
  }

  /** A special character, the k-th searched for, escaped as a backslash and `d`. */
  lemma UnescapeSpecial(x: char, k: nat, d: char, rest: string)
    requires k < |MYSQL_SEARCH_CHARS| && MYSQL_SEARCH_CHARS[k] == x
    requires forall i :: 0 <= i < k ==> MYSQL_SEARCH_CHARS[i] != x
    requires MYSQL_REPLACEMENTS[k] == ['\\', d] && UnescapeChar(d) == x
    ensures Unescape(SubstChar(MYSQL_SEARCH_CHARS, MYSQL_REPLACEMENTS, x) + rest) == [x] + Unescape(rest)
  {
    SubstCharFirst(MYSQL_SEARCH_CHARS, MYSQL_REPLACEMENTS, x, k);
    UnescapeBackslash(d, rest);
  }

  /** Unescaping undoes the escape of one character. */
  lemma UnescapeAfterEscapeChar(x: char, rest: string)
    ensures Unescape(SubstChar(MYSQL_SEARCH_CHARS, MYSQL_REPLACEMENTS, x) + rest) == [x] + Unescape(rest)
  {
    if x == '\\' {
      UnescapeSpecial(x, 0, '\\', rest);
    } else if x == '\0' {
      UnescapeSpecial(x, 1, '0', rest);
    } else if x == '\n' {
      UnescapeSpecial(x, 2, 'n', rest);
    } else if x == '\r' {
      UnescapeSpecial(x, 3, 'r', rest);
    } else if x == '\'' {
      UnescapeSpecial(x, 4, '\'', rest);
    } else if x == '"' {
      UnescapeSpecial(x, 5, '"', rest);
    } else if x == '\U{1A}' {
      UnescapeSpecial(x, 6, 'Z', rest);
    } else {
      SubstCharUntouched(MYSQL_SEARCH_CHARS, MYSQL_REPLACEMENTS, x);
      UnescapePlain(x, rest);
    }
  }

  /** Escaping loses nothing: reading the escaped text back gives the value. */
  lemma {:induction false} EscapeRoundTrip(value: string)
    ensures Unescape(EscapeChars(value)) == value
    decreases |value|
  {
    if value != [] {
      UnescapeAfterEscapeChar(value[0], EscapeChars(value[1..]));
      EscapeRoundTrip(value[1..]);
      assert value == [value[0]] + value[1..];
    }
  }

  /** No NUL, line feed, carriage return or Ctrl-Z is left in an escaped value. */
  lemma {:induction false} EscapedHasNoControlChars(value: string)
    ensures forall c :: c in EscapeChars(value) ==> c != '\0' && c != '\n' && c != '\r' && c != '\U{1A}'
    decreases |value|
  {
    if value != [] {
      var head, rest := SubstChar(MYSQL_SEARCH_CHARS, MYSQL_REPLACEMENTS, value[0]), EscapeChars(value[1..]);
      EscapedCharHasNoControlChars(value[0]);
      EscapedHasNoControlChars(value[1..]);
      assert EscapeChars(value) == head + rest;
      forall c | c in head + rest
        ensures c != '\0' && c != '\n' && c != '\r' && c != '\U{1A}'
      {
        assert c in head || c in rest;
      }
    }
  }

  /** The escape of one character holds no NUL, line feed, carriage return or
      Ctrl-Z. */
  lemma EscapedCharHasNoControlChars(x: char)
    ensures forall c :: c in SubstChar(MYSQL_SEARCH_CHARS, MYSQL_REPLACEMENTS, x) ==>
                          c != '\0' && c != '\n' && c != '\r' && c != '\U{1A}'
  {
    EscapeCharTable(x);
  }

  /** Lower-case letters are never escaped. */
  lemma {:induction false} EscapeLetters(s: string)
    requires forall i :: 0 <= i < |s| ==> 'a' <= s[i] <= 'z'
    ensures EscapeChars(s) == s
    decreases |s|
  {
    if s != [] {
      EscapeCharTable(s[0]);
      EscapeLetters(s[1..]);
      assert s == [s[0]] + s[1..];
    }
  }

  /** The case from the library's test, `test'test` and a line feed before
      a third `test`, for any word of lower-case letters in place of `test`. */
  lemma EscapeExample(t: string)
    requires forall i :: 0 <= i < |t| ==> 'a' <= t[i] <= 'z'
    ensures MySqlEscape(t + "'" + t + "\n" + t) == t + "\\'" + t + "\\n" + t
  {
    var quote, lf := "'", "\n";
    var value := t + quote + t + lf + t;
    assert MySqlEscape(value) == EscapeChars(value) by {
      MySqlEscapeIsPerCharacter(value);
    }
    assert EscapeChars(value) == EscapeChars(t) + EscapeChars(quote) + EscapeChars(t) + EscapeChars(lf) + EscapeChars(t) by {
      EscapeCharsJoin(t, quote, t, lf, t);
    }
    EscapeLetters(t);
    assert EscapeChars(quote) == "\\'" by {
      EscapeCharTable('\'');
    }
    assert EscapeChars(lf) == "\\n" by {
      EscapeCharTable('\n');
    }
  }

  /** Escaping five pieces one after the other. */
  lemma EscapeCharsJoin(a: string, b: string, c: string, d: string, e: string)
    ensures EscapeChars(a + b + c + d + e) ==
            EscapeChars(a) + EscapeChars(b) + EscapeChars(c) + EscapeChars(d) + EscapeChars(e)
  {
    var cs, rs := MYSQL_SEARCH_CHARS, MYSQL_REPLACEMENTS;
    SubstAllConcat(cs, rs, a, b);
    SubstAllConcat(cs, rs, a + b, c);
    SubstAllConcat(cs, rs, a + b + c, d);
    SubstAllConcat(cs, rs, a + b + c + d, e);
  }


  // ---------------------------------------------------------------------------
  // The adapter object

  class PdoAdapter {
    const driver: string
    const options: Options
    /** The PDO connection, created on first use. */
    var pdo: Option<PdoHandle>
    /** How many PDO connections this adapter has created. */
    ghost var connects: nat

    ghost predicate Valid()
      reads this
    {
      connects <= 1 && (pdo.Some? <==> connects == 1)
    }

    /** `__construct($driver, $options, $role)`: the role is not kept, and
        nothing connects yet. */
    constructor (driver: string, options: Options, role: string)
      ensures Valid()
      ensures this.driver == driver && this.options == options
      ensures pdo == None && connects == 0
    {
      this.driver := driver;
      this.options := options;
      pdo := None;
      connects := 0;
    }

    /** `getPdo()`: connects on the first call that needs it and reuses that
        connection afterwards; a failed attempt leaves no connection behind. */
    method GetPdo(connectFault: Option<string>) returns (r: Result<PdoHandle, DbError>)
      requires Valid()
      modifies this`pdo, this`connects
      ensures Valid()
      ensures old(pdo).Some? ==> r == Success(old(pdo).value) && pdo == old(pdo) && connects == old(connects)
      ensures old(pdo).None? ==> r == Connect(driver, options, connectFault)
      ensures old(pdo).None? ==> pdo == (if r.Success? then Some(r.value) else None)
    {
      if pdo.None? {
        var error := SetPdo(connectFault);
        if error.Some? {
          return Failure(error.value);
        }
      }
      r := Success(pdo.value);
    }

    /** `setPdo($driver, $options)`, called by `getPdo` when there is no
        connection yet. */
    method SetPdo(connectFault: Option<string>) returns (error: Option<DbError>)
      requires Valid() && pdo.None?
      modifies this`pdo, this`connects
      ensures Valid()
      ensures var c := Connect(driver, options, connectFault);
        && (c.Failure? ==> error == Some(c.error) && pdo == None)
        && (c.Success? ==> error == None && pdo == Some(c.value))
    {
      var c := Connect(driver, options, connectFault);
      if c.Failure? {
        error := Some(c.error);
      } else {
        error := None;
        pdo := Some(c.value);
        connects := connects + 1;
      }
    }

    /** `escapeValue($value)`: only MySQL is supported. */
    function EscapeValue(value: string): (r: Result<string, DbError>)
      ensures r.Success? <==> driver == DRIVER_MYSQL
      ensures r.Success? ==> r.value == EscapeChars(value) && Unescape(r.value) == value
      ensures r.Failure? ==> r.error.DatabaseError?
    {
      if driver == DRIVER_MYSQL then
        MySqlEscapeIsPerCharacter(value);
        EscapeRoundTrip(value);
        Success(MySqlEscape(value))
      else
        Failure(DatabaseError("Method not yet implemented for this database"))
    }
  }

  /** Two uses of an adapter open one connection: the library's lazy-handle
      test. The second use would fail if it tried to connect again. */
  method LazyConnectionExample(options: Options) returns (first: Result<PdoHandle, DbError>, second: Result<PdoHandle, DbError>)
    requires ValidateStandardDatabaseOptions(options).None?
    ensures first.Success? && second == first
  {
    var adapter := new PdoAdapter(DRIVER_MYSQL, options, ROLE_MASTER);
    first := adapter.GetPdo(None);
    assert adapter.connects == 1;
    second := adapter.GetPdo(Some("unreachable server"));
    assert adapter.connects == 1;
  }
}
