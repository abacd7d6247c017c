/** The RabbitMQ queue processor's computed fields
    (pkg/messagingrp/processors/rabbitmqqueues/processor.go): the connection URI and
    whether TLS is in use. */
module RabbitMQProcessor {
  import opened Wrappers
  import opened Strings

  newtype int32 = x: int | -0x8000_0000 <= x < 0x8000_0000

  /** The default port of RabbitMQ's TLS listener. */
  const RABBITMQ_SSL_PORT: int32 := 5671

  /** The fields of a RabbitMQQueue resource that the computed values are built from. */
  datatype QueueConnection = QueueConnection(
    host: string,
    port: int32,
    vhost: string,
    username: string,
    password: string,
    tls: bool)

  predicate IsDigit(c: char) { '0' <= c <= '9' }

  predicate AllDigits(s: string) { forall i :: 0 <= i < |s| ==> IsDigit(s[i]) }

  function DigitValue(c: char): nat
    requires IsDigit(c)
  {
    c as int - '0' as int
  }

  function DigitChar(d: nat): (c: char)
    requires d < 10
    ensures IsDigit(c) && DigitValue(c) == d
  {
    ('0' as int + d) as char
  }

  /** Decimal digits of n, most significant first, with no leading zeros. */
  function NatToString(n: nat): (s: string)
    ensures |s| >= 1 && AllDigits(s)
  {
    if n < 10 then [DigitChar(n)] else NatToString(n / 10) + [DigitChar(n % 10)]
  }

  /** Go's %v of an integer: a minus sign for negatives, then the decimal digits. */
  function FormatInt(n: int): (s: string)
    ensures |s| >= 1
  {
    if n < 0 then "-" + NatToString(-n) else NatToString(n)
  }

  function ParseNat(s: string): nat
    requires AllDigits(s)
  {
    if s == [] then 0 else ParseNat(s[..|s| - 1]) * 10 + DigitValue(s[|s| - 1])
  }

  function ParseInt(s: string): int
    requires |s| >= 1 && (s[0] == '-' ==> AllDigits(s[1..])) && (s[0] != '-' ==> AllDigits(s))
  {
    if s[0] == '-' then -(ParseNat(s[1..]) as int) else ParseNat(s)
  }

  lemma {:induction false} NatToStringRoundTrip(n: nat)
    ensures ParseNat(NatToString(n)) == n
  {
    if n >= 10 {
      NatToStringRoundTrip(n / 10);
      var s := NatToString(n);
      assert s[..|s| - 1] == NatToString(n / 10);
    }
  }

  /** The port text in the URI reads back as the port. */
  lemma FormatIntRoundTrip(n: int)
    ensures var s := FormatInt(n); |s| >= 1 && (s[0] == '-' ==> AllDigits(s[1..])) && (s[0] != '-' ==> AllDigits(s))
    ensures ParseInt(FormatInt(n)) == n
  {
    if n < 0 {
      NatToStringRoundTrip(-n);
      assert FormatInt(n)[1..] == NatToString(-n);
    } else {
      NatToStringRoundTrip(n);
    }
  }

  function Scheme(tls: bool): string { if tls then "amqps" else "amqp" }

  /** "amqps://" and "amqp://" cannot be mistaken for each other. */
  lemma SchemeIsRecognisable(tls: bool, rest: string)
    ensures StartsWith(Scheme(tls) + "://" + rest, "amqps://") <==> tls
    ensures StartsWith(Scheme(tls) + "://" + rest, "amqp://") <==> !tls
  {
    var uri := Scheme(tls) + "://" + rest;
    if tls {
      assert uri[..8] == "amqps://";
      assert uri[4] == 's' && "amqp://"[4] == ':';
    } else {
      assert uri[..7] == "amqp://";
      assert uri[4] == ':' && "amqps://"[4] == 's';
    }
  }

  /** computeURI: scheme://[username:password@]host:port/vhost, the scheme being amqps
      exactly when TLS is on and the user info present exactly when a username or a
      password is set. */
  function ComputeURI(resource: QueueConnection): (uri: string)
    ensures StartsWith(uri, "amqps://") <==> resource.tls
    ensures StartsWith(uri, "amqp://") <==> !resource.tls
    ensures var tail := ":" + FormatInt(resource.port as int) + "/" + resource.vhost;
      && StartsWith(uri, Scheme(resource.tls) + "://")
      && (resource.username == "" && resource.password == "" ==>
            uri[|Scheme(resource.tls)| + 3..] == resource.host + tail)
      && (resource.username != "" || resource.password != "" ==>
            uri[|Scheme(resource.tls)| + 3..] == resource.username + ":" + resource.password + "@" + (resource.host + tail))
      && EndsWith(uri, tail)
  {
    var protocol := Scheme(resource.tls);
    var usernamePassword :=
      if resource.username != "" || resource.password != "" then resource.username + ":" + resource.password + "@" else "";
    var tail := ":" + FormatInt(resource.port as int) + "/" + resource.vhost;
    var prefix := protocol + "://";
    var rest := usernamePassword + (resource.host + tail);
    var uri := prefix + rest;
    assert uri[..|prefix|] == prefix && uri[|prefix|..] == rest;
    assert uri[|uri| - |tail|..] == tail by {
      assert uri == (prefix + usernamePassword + resource.host) + tail;
    }
    SchemeIsRecognisable(resource.tls, rest);
    uri
  }

  /** computeSSL */
  function ComputeSSL(resource: QueueConnection): (ssl: bool)
    ensures ssl <==> resource.port == RABBITMQ_SSL_PORT
  {
    resource.port == RABBITMQ_SSL_PORT
  }

  /** When TLS is left to be computed from the port, the URI uses amqps exactly for the
      TLS port 5671. */
  lemma ComputedSchemeFollowsPort(resource: QueueConnection)
    ensures StartsWith(ComputeURI(resource.(tls := ComputeSSL(resource))), "amqps://") <==> resource.port == 5671
  {
  }

  /** Delete has nothing to clean up and always succeeds. */
  method Delete(resource: QueueConnection) returns (err: Option<string>)
    ensures err.None?
  {
    return None;
  }
}
