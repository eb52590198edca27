/** bbq-console.js: the on-screen console, a log list that keeps the six
    newest entries, two status slots and a show/hide switch. The DOM is not
    part of this model: the list is the text of its entries and the
    container's `style.display` is a string. */
module BbqConsole {

  /** The most entries the log list holds after a `log`. */
  const Capacity := 6

  /** The log entries after `log(content)`: the oldest one is dropped when
      more than five are already shown, and the new one goes last. */
  function Logged(logs: seq<string>, content: string): (r: seq<string>)
    ensures |logs| <= Capacity ==> |r| <= Capacity
    ensures |r| >= 1
    ensures r[|r| - 1] == content
    ensures |logs| > Capacity - 1 ==> r[..|r| - 1] == logs[1..]
    ensures |logs| <= Capacity - 1 ==> r[..|r| - 1] == logs
  {
    (if |logs| > 5 then logs[1..] else logs) + [content]
  }

  /** The last `min(n, |s|)` elements of `s`. */
  function Newest(s: seq<string>, n: nat): (r: seq<string>)
    ensures |r| == if |s| < n then |s| else n
  {
    if |s| <= n then s else s[|s| - n..]
  }

  /** Logging every content of `contents` in order, starting from the
      list `logs`. */
  function LogAll(logs: seq<string>, contents: seq<string>): seq<string>
  {
    if contents == [] then logs
    else Logged(LogAll(logs, contents[..|contents| - 1]), contents[|contents| - 1])
  }

  /** Starting from an empty list, any run of `log` calls leaves exactly
      the six newest contents, oldest first. */
  lemma {:induction false} LogKeepsNewest(contents: seq<string>)
    ensures LogAll([], contents) == Newest(contents, Capacity)
  {
    if contents != [] {
      var init := contents[..|contents| - 1];
      var last := contents[|contents| - 1];
      LogKeepsNewest(init);
      assert contents == init + [last];
      if |init| > 5 {
        assert Newest(init, Capacity)[1..] + [last] == Newest(contents, Capacity);
      }
    }
  }

  /** The value `display` takes after `toggle`. */
  function Toggled(display: string): (r: string)
    ensures display == "none" ==> r == "block"
    ensures display != "none" ==> r == "none"
  {
    if display == "none" then "block" else "none"
  }

  /** Toggling twice restores a shown or hidden console. */
  lemma ToggleTwice(display: string)
    requires display == "none" || display == "block"
    ensures Toggled(Toggled(display)) == display
  {
  }

  /** `BBQ.console`. */
  class Console {
    var logs: seq<string>
    var display: string
    var statusText: string
    var fpsText: string
    var showOnReady: bool

    ghost predicate Valid()
      reads this
    {
      |logs| <= Capacity && (display == "none" || display == "block")
    }

    /** The console as the module builds it: hidden, no entries, the status
        slot empty and the fps slot showing `---`. */
    constructor ()
      ensures Valid()
      ensures logs == [] && display == "none"
      ensures statusText == "" && fpsText == "---" && showOnReady
    {
      logs, display := [], "none";
      statusText, fpsText := "", "---";
      showOnReady := true;
    }

    /** Writes the static status slot. */
    method Status(content: string) returns (self: Console)
      requires Valid()
      modifies this`statusText
      ensures Valid() && self == this
      ensures statusText == content
    {
      statusText := content;
      self := this;
    }

    /** Writes the dynamic (fps) slot. */
    method Fps(content: string) returns (self: Console)
      requires Valid()
      modifies this`fpsText
      ensures Valid() && self == this
      ensures fpsText == content
    {
      fpsText := content;
      self := this;
    }

    /** Appends an entry, dropping the oldest first when six are shown. */
    method Log(content: string) returns (entry: string)
      requires Valid()
      modifies this`logs
      ensures Valid()
      ensures logs == Logged(old(logs), content)
      ensures entry == content
    {
      if |logs| > 5 {
        logs := logs[1..];
      }
      logs := logs + [content];
      entry := content;
    }

    method Show() returns (self: Console)
      requires Valid()
      modifies this`display
      ensures Valid() && self == this
      ensures display == "block"
    {
      display := "block";
      self := this;
    }

    method Hide() returns (self: Console)
      requires Valid()
      modifies this`display
      ensures Valid() && self == this
      ensures display == "none"
    {
      display := "none";
      self := this;
    }

    /** Shows a hidden console and hides a shown one. */
    method Toggle() returns (self: Console)
      requires Valid()
      modifies this`display
      ensures Valid() && self == this
      ensures display == Toggled(old(display))
      ensures display != old(display)
    {
      if display == "none" {
        self := Show();
      } else {
        self := Hide();
      }
    }
  }
}
