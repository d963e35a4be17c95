/** The six log4j severities and the token each one is written as in a log line. */
module LogLevels {
  import opened Wrappers

  /** Declared in the enum's order. */
  datatype Level = FATAL | ERROR | WARN | INFO | DEBUG | TRACE

  /** LogLevels.getLevel: the token given to the constant's constructor, its own name. */
  function Token(l: Level): (t: string)
    ensures |t| >= 4
  {
    match l
    case FATAL => "FATAL"
    case ERROR => "ERROR"
    case WARN => "WARN"
    case INFO => "INFO"
    case DEBUG => "DEBUG"
    case TRACE => "TRACE"
  }

  /** LogLevels.valueOf on a token: the constant whose token it is. */
  function FromToken(t: string): (r: Option<Level>)
  {
    if t == "FATAL" then Some(FATAL)
    else if t == "ERROR" then Some(ERROR)
    else if t == "WARN" then Some(WARN)
    else if t == "INFO" then Some(INFO)
    else if t == "DEBUG" then Some(DEBUG)
    else if t == "TRACE" then Some(TRACE)
    else None
  }

  /** Token and FromToken are inverse, so no two constants share a token. */
  lemma TokenRoundTrip(l: Level, t: string)
    ensures FromToken(Token(l)) == Some(l)
    ensures FromToken(t) == Some(l) <==> t == Token(l)
  {
  }

  lemma TokensDistinct(a: Level, b: Level)
    ensures Token(a) == Token(b) <==> a == b
  {
    TokenRoundTrip(a, Token(b));
  }

  /** LogLevels.getLogLevels: the set of all six tokens. */
  function AllTokens(): (r: set<string>)
    ensures forall l: Level :: Token(l) in r
    ensures forall t :: t in r ==> FromToken(t).Some?
  {
    {Token(FATAL), Token(ERROR), Token(DEBUG), Token(INFO), Token(WARN), Token(TRACE)}
  }

  /** The six tokens are six different strings. */
  lemma AllTokensCount()
    ensures |AllTokens()| == 6
  {
    var r1 := {"FATAL"};
    assert "ERROR" !in r1 by { assert "ERROR"[0] != "FATAL"[0]; }
    var r2 := r1 + {"ERROR"};
    assert |r2| == 2;
    assert "DEBUG" !in r2 by { assert "DEBUG"[0] != "FATAL"[0] && "DEBUG"[0] != "ERROR"[0]; }
    var r3 := r2 + {"DEBUG"};
    assert |r3| == 3;
    assert "INFO" !in r3 by { assert |"INFO"| != |"FATAL"|; }
    var r4 := r3 + {"INFO"};
    assert |r4| == 4;
    assert "WARN" !in r4 by { assert |"WARN"| != |"FATAL"| && "WARN"[0] != "INFO"[0]; }
    var r5 := r4 + {"WARN"};
    assert |r5| == 5;
    assert "TRACE" !in r5 by {
      assert "TRACE"[0] != "FATAL"[0] && "TRACE"[0] != "ERROR"[0] && "TRACE"[0] != "DEBUG"[0];
      assert |"TRACE"| != |"INFO"| && |"TRACE"| != |"WARN"|;
    }
    assert AllTokens() == r5 + {"TRACE"};
  }
}
