/**
 * REST requests and responses as the webhook controllers see them. A
 * query string reaches PHP as `$_GET`, whose names PHP rewrites: leading
 * spaces are dropped and every '.' or ' ' becomes '_' (a name may not
 * hold a dot), and a later duplicate name wins.
 */
module Requests {
  import opened Wrappers
  import opened PhpValues
  import opened OrderedMap

  /** A response: its status code and its body. */
  datatype Response = Response(status: int, body: Value)

  function MangleChar(c: char): (r: char)
    ensures r != '.' && r != ' '
  {
    if c == '.' || c == ' ' then '_' else c
  }

  function DropLeadingSpaces(s: string): (r: string)
    ensures |r| > 0 ==> r[0] != ' '
  {
    if |s| > 0 && s[0] == ' ' then DropLeadingSpaces(s[1..]) else s
  }

  /** The name a query parameter gets in `$_GET`. */
  function MangleName(name: string): (r: string)
    ensures '.' !in r && ' ' !in r
  {
    var t := DropLeadingSpaces(name);
    seq(|t|, i requires 0 <= i < |t| => MangleChar(t[i]))
  }

  /** `$_GET` for a raw query: each (name, value) pair in order. */
  function QueryParams(raw: seq<(string, string)>): seq<(Key, Value)>
  {
    PutAll([], seq(|raw|, i requires 0 <= i < |raw| => (ArrayKey(MangleName(raw[i].0)), Str(raw[i].1))))
  }

  /** `$request->get_param($name)` for a GET request: the query value, or null. */
  function Param(raw: seq<(string, string)>, name: string): Value
  {
    Index(Arr(QueryParams(raw)), ArrayKey(name))
  }

  /** No parameter can be read under a name holding a dot. */
  lemma {:induction false} DottedParamAbsent(raw: seq<(string, string)>, name: string)
    requires '.' in name
    ensures Param(raw, name) == Null
  {
    var es := seq(|raw|, i requires 0 <= i < |raw| => (ArrayKey(MangleName(raw[i].0)), Str(raw[i].1)));
    PutAllKeys([], es);
    var k := ArrayKey(name);
    assert k == SKey(name) by {
      var j :| 0 <= j < |name| && name[j] == '.';
      if |name| > 0 && name[0] == '-' {
        assert name[1..][j - 1] == '.';
      }
    }
    forall i | 0 <= i < |es| ensures es[i].0 != k {
      var m := MangleName(raw[i].0);
      if ArrayKey(m) == k {
        ArrayKeyInjective(m, name);
      }
    }
    assert k !in Keys(es);
  }

  /** Reading a parameter by the name PHP gives it finds the value of the
      last pair sent under a name that mangles to it. */
  lemma ParamOfMangled(raw: seq<(string, string)>, i: nat)
    requires i < |raw|
    requires forall j :: i < j < |raw| ==> MangleName(raw[j].0) != MangleName(raw[i].0)
    ensures Param(raw, MangleName(raw[i].0)) == Str(raw[i].1)
  {
    var es := seq(|raw|, j requires 0 <= j < |raw| => (ArrayKey(MangleName(raw[j].0)), Str(raw[j].1)));
    var k := ArrayKey(MangleName(raw[i].0));
    assert es[i] == (k, Str(raw[i].1));
    assert LastValue(es, k) == Some(Str(raw[i].1)) by {
      forall j | i < j < |es| ensures es[j].0 != es[i].0 {
        if es[j].0 == es[i].0 {
          ArrayKeyInjective(MangleName(raw[j].0), MangleName(raw[i].0));
        }
      }
      LastValueAt(es, i);
    }
    assert Get(PutAll([], es), k) == Some(Str(raw[i].1)) by {
      GetPutAll([], es, k);
    }
    assert QueryParams(raw) == PutAll([], es);
  }

  /** Facebook's three handshake parameters are read under their mangled
      names. */
  lemma HubParams(mode: string, token: string, challenge: string)
    ensures var raw := [("hub.mode", mode), ("hub.verify_token", token), ("hub.challenge", challenge)];
      Param(raw, "hub_mode") == Str(mode) &&
      Param(raw, "hub_verify_token") == Str(token) &&
      Param(raw, "hub_challenge") == Str(challenge)
  {
    var raw := [("hub.mode", mode), ("hub.verify_token", token), ("hub.challenge", challenge)];
    assert MangleName(raw[0].0) == "hub_mode" by {
      assert DropLeadingSpaces("hub.mode") == "hub.mode";
    }
    assert MangleName(raw[1].0) == "hub_verify_token" by {
      assert DropLeadingSpaces("hub.verify_token") == "hub.verify_token";
    }
    assert MangleName(raw[2].0) == "hub_challenge" by {
      assert DropLeadingSpaces("hub.challenge") == "hub.challenge";
    }
    ParamOfMangled(raw, 0);
    ParamOfMangled(raw, 1);
    ParamOfMangled(raw, 2);
  }
}
