/** The tool calls a translator collects from the deltas of a stream. */
module ToolCalls {
  import opened Options
  import opened ChatStream

  /** One call; `position` is the output it was given when it was first seen. */
  datatype Collected = Collected(id: string, name: string, arguments: string, position: nat)

  datatype Calls = Calls(list: seq<Collected>, byIndex: map<int, nat>)
  {
    ghost predicate Valid() {
      forall k :: k in byIndex ==> byIndex[k] < |list|
    }
  }

  datatype Added = Added(calls: Calls, at: nat, isNew: bool)

  /** Merges one delta: continues a call or opens one at `position`. */
  function Add(c: Calls, d: ToolDelta, position: nat): (r: Added)
    requires c.Valid()
    ensures r.calls.Valid() && r.at < |r.calls.list|
    ensures r.isNew ==> r.at == |c.list| && |r.calls.list| == |c.list| + 1 && r.calls.list[r.at].position == position
    ensures !r.isNew ==> |r.calls.list| == |c.list|
    ensures forall i :: 0 <= i < |c.list| ==> r.calls.list[i].position == c.list[i].position
  {
    var n := |c.list|;
    var at :=
      if d.index.Some? then
        if d.index.value in c.byIndex then c.byIndex[d.index.value] else n
      else if n > 0 && (d.id == "" || d.id == c.list[n - 1].id) then n - 1
      else n;
    if at < n then Added(c.(list := c.list[at := Merged(c.list[at], d)]), at, false)
    else
      var key := if d.index.Some? then d.index.value else n;
      Added(Calls(c.list + [Merged(Collected("", "", "", position), d)], c.byIndex[key := n]), n, true)
  }

  /** The id and name come from the first delta that has them; arguments are appended. */
  function Merged(call: Collected, d: ToolDelta): Collected {
    Collected(if call.id == "" then d.id else call.id, if call.name == "" then d.name else call.name,
              call.arguments + d.arguments, call.position)
  }

  class StreamToolCalls {
    var list: seq<Collected>
    var byIndex: map<int, nat>

    function View(): Calls
      reads this
    {
      Calls(list, byIndex)
    }

    constructor ()
      ensures View() == Calls([], map[])
    {
      list, byIndex := [], map[];
    }

    method AddDelta(d: ToolDelta, position: nat) returns (at: nat, isNew: bool)
      requires View().Valid()
      modifies this
      ensures View().Valid() && Added(View(), at, isNew) == Add(old(View()), d, position)
    {
      var n := |list|;
      at := n;
      if d.index.Some? {
        if d.index.value in byIndex {
          at := byIndex[d.index.value];
        }
      } else if n > 0 && (d.id == "" || d.id == list[n - 1].id) {
        at := n - 1;
      }
      isNew := at == n;
      if isNew {
        var key := if d.index.Some? then d.index.value else n;
        byIndex := byIndex[key := n];
        list := list + [Collected("", "", "", position)];
      }
      var call := list[at];
      if call.id == "" {
        call := call.(id := d.id);
      }
      if call.name == "" {
        call := call.(name := d.name);
      }
      list := list[at := call.(arguments := call.arguments + d.arguments)];
      assert isNew ==> list == old(list) + [Merged(Collected("", "", "", position), d)];
    }
  }

  /** The calls collected so far agree with what a client has read. */
  ghost predicate Agree(c: Calls, r: Client) {
    && |c.list| == |r.tools|
    && c.byIndex == r.keys
    && (forall i :: 0 <= i < |r.tools| ==> c.list[i].id == r.tools[i].id && c.list[i].arguments == r.tools[i].arguments)
    && (forall i :: 0 <= i < |r.tools| && r.tools[i].name != "" ==> c.list[i].name == r.tools[i].name)
  }

  ghost predicate AllNamed(tools: seq<ToolCall>) {
    forall i :: 0 <= i < |tools| ==> tools[i].id != ""
  }

  /** A call has an id for the translator that the client did not see when it was opened. */
  ghost predicate LateIds(list: seq<Collected>, tools: seq<ToolCall>) {
    exists i :: 0 <= i < |list| && i < |tools| && list[i].id != "" && tools[i].id == ""
  }

  /** Translator and client tell the same calls apart, and agree on them until a call gets its id late. */
  lemma {:induction false} AddAgrees(c: Calls, r: Client, d: ToolDelta, position: nat)
    requires c.Valid() && r.Valid() && Agree(c, r)
    ensures var a, r' := Add(c, d, position), ReadTool(r, d);
            && (Agree(a.calls, r') <==> !Late(r, d))
            && (Late(r, d) ==> LateIds(a.calls.list, r'.tools))
            && a.isNew == Continues(r, d).None? && (!a.isNew ==> a.at == Continues(r, d).value)
  {
    var a, r' := Add(c, d, position), ReadTool(r, d);
    if Late(r, d) {
      assert a.calls.list[a.at].id == d.id && r'.tools[a.at].id == "";
    }
  }

  lemma {:induction false} LateIdsStay(c: Calls, r: Client, d: ToolDelta, position: nat)
    requires c.Valid() && r.Valid() && LateIds(c.list, r.tools)
    ensures LateIds(Add(c, d, position).calls.list, ReadTool(r, d).tools)
  {
    var i :| 0 <= i < |c.list| && i < |r.tools| && c.list[i].id != "" && r.tools[i].id == "";
    var list, tools := Add(c, d, position).calls.list, ReadTool(r, d).tools;
    assert i < |list| && i < |tools| && list[i].id != "" && tools[i].id == "";
  }
}
