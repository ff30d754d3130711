/** `get_select_field_options`: the choices of the POS invoice's
    `order_type` select field, one per line of its `options` text. */
module SelectOptions {
  import opened Wrappers

  /** One `{"name": option}` entry of the reply. */
  datatype SelectOption = SelectOption(name: string)

  predicate NoNewline(s: string)
  {
    '\n' !in s
  }

  /** `"\n".join(pieces)`. */
  function Join(pieces: seq<string>): string
  {
    if pieces == [] then ""
    else if |pieces| == 1 then pieces[0]
    else pieces[0] + "\n" + Join(pieces[1..])
  }

  /** Python's `s.split("\n")`: the pieces between newlines, at least one
      (an empty string when `s` is empty or ends with a newline). */
  function Split(s: string): (pieces: seq<string>)
    ensures |pieces| >= 1
    ensures forall k :: 0 <= k < |pieces| ==> NoNewline(pieces[k])
    ensures Join(pieces) == s
  {
    if s == "" then [""]
    else
      var rest := Split(s[1..]);
      if s[0] == '\n' then
        assert s == "" + "\n" + Join(rest);
        [""] + rest
      else
        assert [s[0]] + rest[0] + "\n" == [s[0]] + (rest[0] + "\n");
        [[s[0]] + rest[0]] + rest[1..]
  }

  /** `Split` peels off a newline-free first piece. */
  lemma {:induction false} SplitCons(p: string, t: string)
    requires NoNewline(p)
    ensures Split(p + "\n" + t) == [p] + Split(t)
  {
    if p != "" {
      assert (p + "\n" + t)[1..] == p[1..] + "\n" + t;
      SplitCons(p[1..], t);
      assert [p[0]] + p[1..] == p;
    } else {
      assert (p + "\n" + t)[1..] == t;
    }
  }

  /** A newline-free string is a single piece. */
  lemma {:induction false} SplitSingle(p: string)
    requires NoNewline(p)
    ensures Split(p) == [p]
  {
    if p != "" {
      SplitSingle(p[1..]);
      assert [p[0]] + p[1..] == p;
    }
  }

  /** Splitting undoes joining newline-free pieces. */
  lemma {:induction false} SplitJoin(pieces: seq<string>)
    requires |pieces| >= 1
    requires forall k :: 0 <= k < |pieces| ==> NoNewline(pieces[k])
    ensures Split(Join(pieces)) == pieces
  {
    if |pieces| == 1 {
      SplitSingle(pieces[0]);
    } else {
      SplitJoin(pieces[1..]);
      SplitCons(pieces[0], Join(pieces[1..]));
    }
  }

  function OptionNames(options: seq<SelectOption>): (names: seq<string>)
    ensures |names| == |options|
    ensures forall k :: 0 <= k < |options| ==> names[k] == options[k].name
  {
    seq(|options|, k requires 0 <= k < |options| => options[k].name)
  }

  /** `get_select_field_options`: no choices for a missing or empty options
      text, else one per line, in order, which joined with newlines give
      the text back. */
  function GetSelectFieldOptions(options: Option<string>): (r: seq<SelectOption>)
    ensures !Truthy(options) ==> r == []
    ensures Truthy(options) ==>
      && |r| >= 1
      && Join(OptionNames(r)) == options.value
      && forall k :: 0 <= k < |r| ==> NoNewline(r[k].name)
  {
    if Truthy(options) then
      var pieces := Split(options.value);
      var r := seq(|pieces|, k requires 0 <= k < |pieces| => SelectOption(pieces[k]));
      assert OptionNames(r) == pieces;
      r
    else []
  }
}
