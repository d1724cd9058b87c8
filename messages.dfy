/** Message templates, the session parameter table and rendering.

    A template is written in the source as a `str.format` string with named
    placeholders; here it is the sequence of its literal and placeholder
    segments. Rendering substitutes every placeholder from the parameter table
    and fails, as `str.format` raises `KeyError`, when a name is missing. */
module Messages {
  import opened Text

  datatype Segment = Lit(text: string) | Field(name: string)

  type Template = seq<Segment>

  /** The session's parameter table (`msg_params`). */
  type Params = map<string, string>

  const MyCall := "mycall"
  const MyGrid := "mygrid"
  const TheirCall := "theircall"
  const TheirGrid := "theirgrid"
  const TheirRssi := "theirrssi"
  const MyRssi := "myrssi"

  /** The peer-scoped keys, bound during an exchange and reset after it. */
  const PeerKeys: set<string> := {TheirCall, TheirGrid, TheirRssi, MyRssi}

  /** The names of the placeholders of a template. */
  function Fields(t: Template): set<string> {
    set i | 0 <= i < |t| && t[i].Field? :: t[i].name
  }

  lemma FieldsCons(t: Template)
    requires t != []
    ensures Fields(t) == (if t[0].Field? then {t[0].name} else {}) + Fields(t[1..])
  {
    assert forall j :: 0 <= j < |t| - 1 ==> t[1..][j] == t[j + 1];
  }

  /** `template.format(**params)`: `None` stands for the `KeyError` raised for
      the first placeholder without a value. */
  function Render(t: Template, p: Params): (r: Option<string>)
    ensures r.Some? <==> Fields(t) <= p.Keys
    ensures t == [] ==> r == Some("")
  {
    if t == [] then Some("")
    else
      FieldsCons(t);
      var rest := Render(t[1..], p);
      match t[0]
      case Lit(s) => if rest.Some? then Some(s + rest.value) else None
      case Field(n) => if n in p && rest.Some? then Some(p[n] + rest.value) else None
  }

  /** The template as the source writes it, placeholders in braces. */
  function Source(t: Template): string {
    if t == [] then ""
    else
      (match t[0]
       case Lit(s) => s
       case Field(n) => "{" + n + "}")
      + Source(t[1..])
  }

  /** `BcnSend.MSG`, the beacon announcement. */
  const BeaconTemplate: Template := [Lit("BCN "), Field(MyCall), Lit(" "), Field(MyGrid)]

  /** The six stage templates set up by `StateMachine.__init__`. */
  const Templates: seq<Template> := [
    [Lit("CQ "), Field(MyCall), Lit(" "), Field(MyGrid)],
    [Field(TheirCall), Lit(" "), Field(MyCall), Lit(" "), Field(MyGrid)],
    [Field(TheirCall), Lit(" "), Field(MyCall), Lit(" "), Field(TheirRssi)],
    [Field(TheirCall), Lit(" "), Field(MyCall), Lit(" R"), Field(TheirRssi)],
    [Field(TheirCall), Lit(" "), Field(MyCall), Lit(" RRR")],
    [Field(TheirCall), Lit(" "), Field(MyCall), Lit(" 73")]
  ]

  /** Every key a template or the parser looks up is bound. */
  predicate Complete(p: Params) {
    {MyCall, MyGrid} + PeerKeys <= p.Keys
  }

  /** The peer-scoped keys set back to their sentinel values, which are the
      placeholder texts themselves, so that a render before or after a contact
      succeeds and shows the placeholder. */
  function ResetPeer(p: Params): (r: Params)
    ensures r.Keys == p.Keys + PeerKeys
    ensures r[TheirCall] == "{theircall}" && r[TheirGrid] == "{theirgrid}"
    ensures r[TheirRssi] == "{rssi}" && r[MyRssi] == "{rssi}"
    ensures forall k :: k in p && k !in PeerKeys ==> r[k] == p[k]
  {
    p[TheirCall := "{theircall}"][TheirGrid := "{theirgrid}"][TheirRssi := "{rssi}"][MyRssi := "{rssi}"]
  }

  /** `msg_params` as `StateMachine.__init__` builds it from the configured
      callsign and grid locator. */
  function InitialParams(callsign: string, grid: string): (r: Params)
    ensures Complete(r)
    ensures r.Keys == {MyCall, MyGrid} + PeerKeys
    ensures r[MyCall] == callsign && r[MyGrid] == grid
    ensures r == ResetPeer(r)
  {
    ResetPeer(map[MyCall := callsign, MyGrid := grid])
  }

  /** Resetting twice is resetting once. */
  lemma ResetPeerIdempotent(p: Params)
    ensures ResetPeer(ResetPeer(p)) == ResetPeer(p)
  {
  }

  /** Rendering depends only on the values of the template's own fields. */
  lemma {:induction false} RenderAgrees(t: Template, p: Params, q: Params)
    requires forall n :: n in Fields(t) ==> (n in p <==> n in q) && (n in p ==> p[n] == q[n])
    ensures Render(t, p) == Render(t, q)
  {
    if t != [] {
      FieldsCons(t);
      RenderAgrees(t[1..], p, q);
    }
  }

  /** With every key bound, every stage template and the beacon announcement
      render without a `KeyError`. */
  lemma CompleteRenders(p: Params)
    requires Complete(p)
    ensures Render(BeaconTemplate, p).Some?
    ensures forall k :: 0 <= k < |Templates| ==> Render(Templates[k], p).Some?
  {
    var keys := {MyCall, MyGrid} + PeerKeys;
    assert forall k :: 0 <= k < |Templates| ==> forall i :: 0 <= i < |Templates[k]| && Templates[k][i].Field? ==> Templates[k][i].name in keys;
    assert Fields(BeaconTemplate) <= keys;
  }

  /** Rendering a template of the shape `{a} {b}<sep>{c}`. */
  lemma RenderCallCallField(a: string, b: string, sep: string, c: string, p: Params)
    requires a in p && b in p && c in p
    ensures Render([Field(a), Lit(" "), Field(b), Lit(sep), Field(c)], p)
         == Some(p[a] + (" " + (p[b] + (sep + p[c]))))
  {
    var t := [Field(a), Lit(" "), Field(b), Lit(sep), Field(c)];
    assert t[5..] == [] && t[4..][1..] == t[5..] && t[3..][1..] == t[4..] && t[2..][1..] == t[3..] && t[1..][1..] == t[2..];
    assert p[c] + "" == p[c];
    assert Render(t[4..], p) == Some(p[c]);
    assert Render(t[3..], p) == Some(sep + p[c]);
    assert Render(t[2..], p) == Some(p[b] + (sep + p[c]));
  }

  /** Rendering a template of the shape `{a} {b}<sep>`. */
  lemma RenderCallCallWord(a: string, b: string, sep: string, p: Params)
    requires a in p && b in p
    ensures Render([Field(a), Lit(" "), Field(b), Lit(sep)], p) == Some(p[a] + (" " + (p[b] + sep)))
  {
    var t := [Field(a), Lit(" "), Field(b), Lit(sep)];
    assert t[4..] == [] && t[3..][1..] == t[4..] && t[2..][1..] == t[3..] && t[1..][1..] == t[2..];
    assert sep + "" == sep;
    assert Render(t[3..], p) == Some(sep);
    assert Render(t[2..], p) == Some(p[b] + sep);
  }

  /** Rendering a template of the shape `<pre>{a} {b}`. */
  lemma RenderWordField(pre: string, a: string, b: string, p: Params)
    requires a in p && b in p
    ensures Render([Lit(pre), Field(a), Lit(" "), Field(b)], p) == Some(pre + (p[a] + (" " + p[b])))
  {
    var t := [Lit(pre), Field(a), Lit(" "), Field(b)];
    assert t[4..] == [] && t[3..][1..] == t[4..] && t[2..][1..] == t[3..] && t[1..][1..] == t[2..];
    assert p[b] + "" == p[b];
    assert Render(t[3..], p) == Some(p[b]);
    assert Render(t[2..], p) == Some(" " + p[b]);
    assert Render(t[1..], p) == Some(p[a] + (" " + p[b]));
  }

  /** The beacon announcement is "BCN", our callsign and our grid locator. */
  lemma RenderBeacon(p: Params)
    requires MyCall in p && MyGrid in p
    ensures Render(BeaconTemplate, p) == Some("BCN " + p[MyCall] + " " + p[MyGrid])
  {
    RenderWordField("BCN ", MyCall, MyGrid, p);
    var a, b := p[MyCall], p[MyGrid];
    assert "BCN " + (a + (" " + b)) == "BCN " + a + " " + b;
  }

  /** The calling template with `mycall` KD1ABC and `mygrid` FN42 renders as
      "CQ KD1ABC FN42". */
  lemma RenderCallingExample()
    ensures Render(Templates[0], map[MyCall := "KD1ABC", MyGrid := "FN42"]) == Some("CQ KD1ABC FN42")
  {
    var t, p := Templates[0], map[MyCall := "KD1ABC", MyGrid := "FN42"];
    assert t[4..] == [] && t[3..][1..] == t[4..] && t[2..][1..] == t[3..] && t[1..][1..] == t[2..] && t[1..] == t[..][1..];
    assert MyGrid in p && p[MyGrid] == "FN42";
    assert t[3..] == [Field(MyGrid)];
    assert Render(t[4..], p) == Some("");
    assert "FN42" + "" == "FN42";
    assert Render(t[3..], p) == Some("FN42");
    assert " " + "FN42" == " FN42";
    assert Render(t[2..], p) == Some(" FN42");
    assert "KD1ABC" + " FN42" == "KD1ABC FN42";
    assert Render(t[1..], p) == Some("KD1ABC FN42");
    assert "CQ " + "KD1ABC FN42" == "CQ KD1ABC FN42";
  }
}
