/** The parts of `BetterTk` (win.py) that are bookkeeping rather than layout:
    the table of window-manager protocol handlers, and the title bar's
    fullscreen button, which drives the underlying `NoTitlebarTk`. */
module Chrome {
  import opened Errors
  import FallbackTk
  import Drag

  /** A protocol handler: the window's own `destroy`, or a callable the
      application registered (identified by a number). */
  datatype Handler = DestroyWindow | Callback(id: nat)

  /** What `protocol` returns: the registered names, one handler, or `None`. */
  datatype ProtocolReply = Names(names: seq<string>) | HandlerOf(handler: Handler) | NoReply

  /** A title bar button's `command`. */
  datatype Command = ToggleFullscreenCmd | FullscreenCmd | NotfullscreenCmd

  class BetterTk {
    /** `self.protocols`, a dict: its keys in insertion order, and its entries. */
    var protocolNames: seq<string>
    var protocols: map<string, Handler>

    ghost predicate Valid()
      reads this
    {
      (forall p :: p in protocols <==> p in protocolNames) &&
      (forall i, j :: 0 <= i < j < |protocolNames| ==> protocolNames[i] != protocolNames[j])
    }

    constructor ()
      ensures Valid()
      ensures protocolNames == ["WM_DELETE_WINDOW"] && protocols == map["WM_DELETE_WINDOW" := DestroyWindow]
    {
      protocolNames := ["WM_DELETE_WINDOW"];
      protocols := map["WM_DELETE_WINDOW" := DestroyWindow];
    }

    /** `protocol`: with no name, the registered names; with a name only,
        its handler (`KeyError` when there is none); with both, registers
        the handler, replacing any earlier one. */
    method Protocol(protocol: Option<string>, handler: Option<Handler>) returns (r: Result<ProtocolReply>)
      requires Valid()
      modifies this
      ensures Valid()
      ensures protocol.None? ==> r == Ok(Names(old(protocolNames))) && protocols == old(protocols) &&
                                 protocolNames == old(protocolNames)
      ensures protocol.Some? && handler.None? ==>
        protocols == old(protocols) && protocolNames == old(protocolNames) &&
        (protocol.value in protocols ==> r == Ok(HandlerOf(protocols[protocol.value]))) &&
        (protocol.value !in protocols ==> r == Err(KeyError))
      ensures protocol.Some? && handler.Some? ==>
        r == Ok(NoReply) && protocols == old(protocols)[protocol.value := handler.value] &&
        protocolNames == old(protocolNames) + (if protocol.value in old(protocols) then [] else [protocol.value])
    {
      if protocol.None? {
        return Ok(Names(protocolNames));
      }
      var name := protocol.value;
      if handler.None? {
        if name !in protocols {
          return Err(KeyError);
        }
        return Ok(HandlerOf(protocols[name]));
      }
      if name !in protocols {
        protocolNames := protocolNames + [name];
      }
      protocols := protocols[name := handler.value];
      r := Ok(NoReply);
    }

    /** `protocol_generate`: the handler that runs for a protocol; an unknown
        protocol is a `TclError`. */
    method ProtocolGenerate(protocol: string) returns (r: Result<Handler>)
      ensures r.Ok? <==> protocol in protocols
      ensures r.Ok? ==> r.value == protocols[protocol]
      ensures r.Err? ==> r.error == TclError
    {
      if protocol !in protocols {
        return Err(TclError);
      }
      r := Ok(protocols[protocol]);
    }
  }

  /** A handler registered with `protocol` is the one `protocol_generate`
      runs, and the closing protocol keeps its default until replaced. */
  method RegisteredHandlerRuns(name: string, f: Handler) returns (closing: Result<Handler>, r: Result<Handler>)
    ensures r == Ok(f)
    ensures closing == (if name == "WM_DELETE_WINDOW" then Ok(f) else Ok(DestroyWindow))
  {
    var w := new BetterTk();
    var _ := w.Protocol(Some(name), Some(f));
    r := w.ProtocolGenerate(name);
    closing := w.ProtocolGenerate("WM_DELETE_WINDOW");
  }

  /** The title bar's fullscreen button. */
  class FullScreenButton {
    const root: FallbackTk.NoTitlebarTk
    var command: Command

    constructor (root: FallbackTk.NoTitlebarTk)
      ensures this.root == root && command == ToggleFullscreenCmd
    {
      this.root := root;
      command := ToggleFullscreenCmd;
    }

    /** `fullscreen`: "error" when the window already is fullscreen, "can't"
        when it is not resizable both ways; otherwise the button's command
        becomes `notfullscreen` and the window goes fullscreen (`None`). */
    method Fullscreen(resizableVertical: bool, resizableHorizontal: bool) returns (r: Option<string>)
      modifies this, root
      ensures old(root.fullscreen) ==> r == Some("error") && command == old(command) && unchanged(root)
      ensures !old(root.fullscreen) && !(resizableVertical && resizableHorizontal) ==>
        r == Some("can't") && command == old(command) && unchanged(root)
      ensures !old(root.fullscreen) && resizableVertical && resizableHorizontal ==>
        r.None? && command == NotfullscreenCmd &&
        root.EnteredFullscreen(old(root.log), old(root.locked), old(root.mapBinding), old(root.nextBinding))
    {
      if root.fullscreen {
        return Some("error");
      }
      if !(resizableVertical && resizableHorizontal) {
        return Some("can't");
      }
      command := NotfullscreenCmd;
      root.Fullscreen();
      r := None;
    }

    /** `notfullscreen` as written: it tests `self.betterroot._fullscreen`,
        an attribute `BetterTk` does not have, so every call raises
        `AttributeError` and changes nothing. */
    method NotfullscreenAsWritten() returns (r: Result<Option<string>>)
      ensures r == Err(AttributeError)
    {
      r := Err(AttributeError);
    }

    /** `notfullscreen` testing the flag `fullscreen` sets
        (`self.betterroot.root._fullscreen`): "error" when the window is not
        fullscreen; otherwise the command goes back to `fullscreen` and the
        window leaves fullscreen. */
    method Notfullscreen(replies: FallbackTk.Replies) returns (r: Result<Option<string>>)
      modifies this, root
      ensures !old(root.fullscreen) ==> r == Ok(Some("error")) && command == old(command) && unchanged(root)
      ensures old(root.fullscreen) ==>
        command == FullscreenCmd && (r.Ok? ==> r.value.None?) &&
        root.LeftFullscreen(if r.Ok? then Pass else Fail(r.error), old(root.log), old(root.locked),
                            old(root.mapBinding), old(root.nextBinding), replies)
      ensures !root.fullscreen
    {
      if !root.fullscreen {
        return Ok(Some("error"));
      }
      command := FullscreenCmd;
      var o := root.Notfullscreen(replies);
      if o.Fail? {
        return Err(o.error);
      }
      r := Ok(None);
    }

    /** `toggle_fullscreen`: a double click counts only on the title bar; a
        click on the button itself (no event) always toggles. */
    method ToggleFullscreen(c: Drag.Chrome, event: Option<Option<int>>, ghost rank: map<int, nat>,
                            replies: FallbackTk.Replies) returns (r: Outcome)
      requires Drag.Ranked(c, rank) && (event.Some? ==> Drag.InTree(c, event.value))
      modifies root
      ensures event.Some? && !Drag.OnTitlebar(c, event.value) ==> r == Pass && unchanged(root)
      ensures event.None? || Drag.OnTitlebar(c, event.value) ==> root.fullscreen == !old(root.fullscreen)
      ensures (event.None? || Drag.OnTitlebar(c, event.value)) && !old(root.fullscreen) ==>
        r == Pass && root.EnteredFullscreen(old(root.log), old(root.locked), old(root.mapBinding), old(root.nextBinding))
      ensures (event.None? || Drag.OnTitlebar(c, event.value)) && old(root.fullscreen) ==>
        root.LeftFullscreen(r, old(root.log), old(root.locked), old(root.mapBinding), old(root.nextBinding), replies)
    {
      if event.Some? {
        var onTitlebar := Drag.CheckParentTitlebar(c, event.value, rank);
        if !onTitlebar {
          return Pass;
        }
      }
      r := root.ToggleFullscreen(replies);
    }
  }

  /** As written, once `fullscreen()` has made the window fullscreen and
      switched the button's command to `notfullscreen`, a press of the button
      raises instead of leaving fullscreen. */
  method ButtonRoundTripAsWritten() returns (first: Option<string>, second: Result<Option<string>>)
    ensures first.None? && second == Err(AttributeError)
  {
    var w := new FallbackTk.NoTitlebarTk();
    var b := new FullScreenButton(w);
    first := b.Fullscreen(true, true);
    assert b.command == NotfullscreenCmd;
    second := b.NotfullscreenAsWritten();
  }

  /** With the corrected `notfullscreen`, `fullscreen()` followed by a press
      of the button returns the window and the button's command to where they
      started. */
  method ButtonRoundTrip(replies: FallbackTk.Replies) returns (first: Option<string>, second: Result<Option<string>>,
                                                              fullscreenAfter: bool, commandAfter: Command)
    requires FallbackTk.Succeeds(replies)
    ensures first.None? && second == Ok(None)
    ensures !fullscreenAfter && commandAfter == FullscreenCmd
  {
    var w := new FallbackTk.NoTitlebarTk();
    var b := new FullScreenButton(w);
    first := b.Fullscreen(true, true);
    second := b.Notfullscreen(replies);
    fullscreenAfter, commandAfter := w.fullscreen, b.command;
  }
}
