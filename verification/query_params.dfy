/** Reading a `key=value` query string the way the `desqta://auth` handler
    in `src-tauri/src/lib.rs` does: the query is the second `?`-separated
    piece, parameters are split at `&` and each at its first `=`, and a later
    parameter for a key replaces an earlier one. The `/error` page reads the
    query built by the error service the same way. */
module QueryParams {
  import opened Wrappers
  import opened Text

  /** The second piece of `url.split('?')`: the text after the first `?`, up
      to the next `?` if there is one; nothing when the link has no `?`. */
  function Query(url: string): (q: Option<string>)
    ensures q.None? <==> '?' !in url
    ensures q.Some? ==>
      var after := SplitOnce(url, '?').value.1;
      && '?' !in q.value
      && StartsWith(after, q.value)
      && (|q.value| == |after| || after[|q.value|] == '?')
  {
    var parts := Split(url, '?');
    if '?' in url then
      var (before, after) := SplitOnce(url, '?').value;
      SplitFirst(before, '?', after);
      assert parts == [before] + Split(after, '?');
      Some(parts[1])
    else
      SplitNoSeparator(url, '?');
      None
  }

  /** A parameter that starts with `key=` splits into the key and the rest. */
  lemma SplitAtKey(param: string, key: string)
    ensures '=' !in key && StartsWith(param, key + "=") ==>
      SplitOnce(param, '=') == Some((key, param[|key| + 1..]))
  {
    if '=' !in key && StartsWith(param, key + "=") {
      assert param == key + ['='] + param[|key| + 1..];
      SplitOnceAt(key, '=', param[|key| + 1..]);
    }
  }

  /** The decoded value a single `key=value` parameter supplies for `key`:
      nothing when it has no `=`, names another key, or fails to decode. */
  function ValueFor(param: string, key: string, dec: string -> Option<string>): (r: Option<string>)
    ensures '=' !in param ==> r.None?
    ensures r.Some? ==> StartsWith(param, key + "=") && '=' !in key
    ensures '=' !in key && StartsWith(param, key + "=") ==> r == dec(param[|key| + 1..])
  {
    SplitAtKey(param, key);
    match SplitOnce(param, '=')
    case None => None
    case Some((k, v)) =>
      if k == key then
        assert param[..|key + "="|] == key + "=";
        dec(v)
      else None
  }

  /** The value held for `key` after reading `params` in order: a parameter
      that supplies one replaces what was held, any other leaves it. */
  function Latest(params: seq<string>, key: string, dec: string -> Option<string>): Option<string> {
    if params == [] then None
    else
      var last := ValueFor(params[|params| - 1], key, dec);
      if last.Some? then last else Latest(params[..|params| - 1], key, dec)
  }

  /** Nothing is held exactly when no parameter supplies a value. */
  lemma {:induction false} LatestNoneIffNoneSupplied(params: seq<string>, key: string, dec: string -> Option<string>)
    ensures Latest(params, key, dec).None? <==>
      forall i :: 0 <= i < |params| ==> ValueFor(params[i], key, dec).None?
    decreases |params|
  {
    if params != [] {
      var n := |params| - 1;
      LatestNoneIffNoneSupplied(params[..n], key, dec);
      assert forall i :: 0 <= i < n ==> params[..n][i] == params[i];
    }
  }

  /** The position of the last parameter that supplies a value, or -1. */
  function LastSupplier(params: seq<string>, key: string, dec: string -> Option<string>): (i: int)
    ensures -1 <= i < |params|
    ensures i >= 0 ==> ValueFor(params[i], key, dec) == Latest(params, key, dec)
    ensures i < 0 ==> Latest(params, key, dec).None?
    ensures forall j :: i < j < |params| ==> ValueFor(params[j], key, dec).None?
    decreases |params|
  {
    if params == [] then -1
    else
      var n := |params| - 1;
      if ValueFor(params[n], key, dec).Some? then n
      else
        var init := params[..n];
        assert forall j :: 0 <= j < n ==> init[j] == params[j];
        LastSupplier(init, key, dec)
  }

  /** The latest parameter that supplies a value wins, and a parameter that
      fails to decode does not erase an earlier value. */
  lemma LatestSuppliedWins(params: seq<string>, key: string, dec: string -> Option<string>)
    requires Latest(params, key, dec).Some?
    ensures exists i ::
      && 0 <= i < |params|
      && ValueFor(params[i], key, dec) == Latest(params, key, dec)
      && forall j :: i < j < |params| ==> ValueFor(params[j], key, dec).None?
  {
    var i := LastSupplier(params, key, dec);
    assert 0 <= i < |params|;
  }
}
