/** The resolution switcher plugin: the player methods `setSrc`, `changeSrc`
    and `updateSrc`, the menu button that `updateSrc` rebuilds, and its menu
    items with their `checkIfSelected` and `switchResolution` handlers. */
module ResolutionSwitcher {
  import opened Common
  import opened Sources

  /** One `ResolutionMenuItem`, bound to a copy of a source's four attributes. */
  class MenuItem {
    const src: string
    const res: Res
    const kind: string
    const displayLabel: Option<string>
    /** The attribute `aria-selected` is 'true'. */
    var ariaSelected: bool
    /** The element carries the class `vjs-selected`. */
    var vjsSelected: bool

    constructor (source: Source)
      ensures Mirrors(this, source)
      ensures !ariaSelected && !vjsSelected
    {
      src := source.src;
      res := source.res;
      kind := source.kind;
      displayLabel := source.displayLabel;
      ariaSelected := false;
      vjsSelected := false;
    }

    /** `checkIfSelected`, run on every `resolutionchange`: the item is marked
        selected exactly when the player's current source has the item's `res`. */
    method CheckIfSelected(current: Source)
      modifies this
      ensures ariaSelected <==> current.res == res
      ensures vjsSelected == ariaSelected
    {
      ariaSelected := current.res == res;
      if ariaSelected {
        vjsSelected := true;
      } else {
        vjsSelected := false;
      }
    }

    /** `switchResolution`, the click handler: it hands `changeSrc` a freshly
        built source object, which can never be `===` to the current one, so
        a click always performs the swap. */
    method SwitchResolution(player: Player)
      requires player.Valid()
      modifies player, player.switcher, player.MenuItems()
      ensures player.Valid()
      ensures player.currentSrc != null && fresh(player.currentSrc)
      ensures Mirrors(this, player.currentSrc)
      ensures player.Swapped(old(player.time), old(player.paused), old(player.playRequests),
                             old(player.hasStartedMarker), old(player.changes), old(player.switcher),
                             old(player.attached), old(player.ShownValue()))
    {
      var source := new Source(src, res, kind, displayLabel);
      player.ChangeSrc(source);
    }
  }

  /** The item carries exactly the attributes of the source it was built from. */
  ghost predicate Mirrors(item: MenuItem, source: Source) {
    item.src == source.src && item.res == source.res &&
    item.kind == source.kind && item.displayLabel == source.displayLabel
  }

  /** The `ResolutionMenuButton` of the control bar. */
  class MenuButton {
    const sources: seq<Source>
    const items: seq<MenuItem>
    /** Text of the `.vjs-resolution-value` element. */
    var valueLabel: string
    var disposed: bool

    /** `init` followed by `createItems`: one fresh, unselected item per
        source, in the order of the sources. */
    constructor (sources: seq<Source>)
      ensures this.sources == sources && |items| == |sources|
      ensures forall i :: 0 <= i < |items| ==> fresh(items[i]) && Mirrors(items[i], sources[i])
      ensures forall i :: 0 <= i < |items| ==> !items[i].ariaSelected && !items[i].vjsSelected
      ensures !disposed && valueLabel == ""
    {
      var made: seq<MenuItem> := [];
      var i := 0;
      while i < |sources|
        invariant 0 <= i <= |sources| && |made| == i
        invariant forall k :: 0 <= k < i ==> fresh(made[k]) && Mirrors(made[k], sources[k])
        invariant forall k :: 0 <= k < i ==> !made[k].ariaSelected && !made[k].vjsSelected
      {
        var item := new MenuItem(sources[i]);
        made := made + [item];
        i := i + 1;
      }
      this.sources := sources;
      items := made;
      valueLabel := "";
      disposed := false;
    }

    /** `updateLabel`, run on every `resolutionchange`. jQuery's `html(undefined)`
        sets nothing, so a source without a label leaves the previous text. */
    method UpdateLabel(current: Source)
      modifies this
      ensures current.displayLabel.Some? ==> valueLabel == current.displayLabel.value
      ensures current.displayLabel.None? ==> valueLabel == old(valueLabel)
      ensures disposed == old(disposed)
    {
      if current.displayLabel.Some? {
        valueLabel := current.displayLabel.value;
      }
    }

    method Dispose()
      modifies this
      ensures disposed && valueLabel == old(valueLabel)
    {
      disposed := true;
    }
  }

  /** The text the value label shows after announcing `current` over `label0`. */
  function ShownLabel(label0: string, current: Option<string>): string {
    if current.Some? then current.value else label0
  }

  /** The menu shows `current`, having shown `label0` before: its label is the
      source's label (or `label0` kept, when the source has none) and each item
      is selected exactly when its `res` is the source's `res`. */
  ghost predicate Announced(menu: MenuButton, current: Source, label0: string)
    reads menu, menu.items
  {
    menu.valueLabel == ShownLabel(label0, current.displayLabel) &&
    forall i :: 0 <= i < |menu.items| ==>
      (menu.items[i].ariaSelected <==> menu.items[i].res == current.res) &&
      menu.items[i].vjsSelected == menu.items[i].ariaSelected
  }

  /** The video.js player, extended with the switcher's methods. */
  class Player {
    /** The plugin option `defaultRes`. */
    const defaultRes: Res
    /** The source last handed to the media engine by `this.src(...)`. */
    var mediaSrc: Source?
    /** `this.currentSrc`, the switcher's pointer. */
    var currentSrc: Source?
    /** The playback position; only ever copied. */
    var time: real
    var paused: bool
    /** How many times `play()` was called. */
    var playRequests: nat
    /** The class `vjs-has-started` is on the player. */
    var hasStartedMarker: bool
    var bigPlayVisible: bool
    /** `this.controlBar.resolutionSwitcher`. */
    var switcher: MenuButton?
    /** Every menu button ever attached to the control bar. */
    ghost var attached: set<MenuButton>
    /** The payload of every `resolutionchange` triggered so far, in order. */
    ghost var changes: seq<Source>

    /** At most one resolution menu is live: the one in the control-bar slot.
        Every other menu ever attached has been disposed. */
    ghost predicate Valid()
      reads this, switcher, attached
    {
      (switcher != null ==> switcher in attached && !switcher.disposed) &&
      forall m :: m in attached && m != switcher ==> m.disposed
    }

    /** The items of the live menu, which `resolutionchange` listeners update. */
    ghost function MenuItems(): seq<MenuItem>
      reads this
    {
      if switcher == null then [] else switcher.items
    }

    /** The text of the live menu's value label ("" when there is no menu). */
    ghost function ShownValue(): string
      reads this, switcher
    {
      if switcher == null then "" else switcher.valueLabel
    }

    constructor (defaultRes: Res)
      ensures Valid()
      ensures this.defaultRes == defaultRes && switcher == null
      ensures mediaSrc == null && currentSrc == null && changes == [] && attached == {}
      ensures time == 0.0 && paused && playRequests == 0 && !hasStartedMarker && bigPlayVisible
    {
      this.defaultRes := defaultRes;
      mediaSrc := null;
      currentSrc := null;
      time := 0.0;
      paused := true;
      playRequests := 0;
      hasStartedMarker := false;
      bigPlayVisible := true;
      switcher := null;
      attached := {};
      changes := [];
    }

    /** The media engine's source assignment `this.src(src)`, taken as the
        HTML media load algorithm: the position goes back to 0 and the media
        is paused. */
    method Load(src: Source)
      modifies this`mediaSrc, this`time, this`paused
      ensures mediaSrc == src && time == 0.0 && paused
    {
      mediaSrc := src;
      time := 0.0;
      paused := true;
    }

    /** The engine's `play()`. */
    method Play()
      modifies this`paused, this`playRequests
      ensures !paused && playRequests == old(playRequests) + 1
    {
      paused := false;
      playRequests := playRequests + 1;
    }

    /** The engine's `currentTime(t)` setter. */
    method SetCurrentTime(t: real)
      modifies this`time
      ensures time == t
    {
      time := t;
    }

    /** `setSrc(src)`: load the source, point `currentSrc` at it and trigger
        exactly one `resolutionchange` carrying it, which the live menu
        handles. */
    method SetSrc(src: Source)
      requires Valid()
      modifies this, switcher, MenuItems()
      ensures Valid()
      ensures mediaSrc == src && currentSrc == src && time == 0.0 && paused
      ensures changes == old(changes) + [src]
      ensures switcher == old(switcher) && attached == old(attached)
      ensures playRequests == old(playRequests) && hasStartedMarker == old(hasStartedMarker)
      ensures bigPlayVisible == old(bigPlayVisible)
      ensures switcher != null ==> Announced(switcher, src, old(ShownValue()))
    {
      Load(src);
      currentSrc := src;
      changes := changes + [src];
      if switcher != null {
        var menu := switcher;
        ghost var label0 := menu.valueLabel;
        menu.UpdateLabel(src);
        var i := 0;
        while i < |menu.items|
          modifies menu.items
          invariant 0 <= i <= |menu.items|
          invariant menu.valueLabel == ShownLabel(label0, src.displayLabel) && !menu.disposed
          invariant forall k :: 0 <= k < i ==>
            (menu.items[k].ariaSelected <==> menu.items[k].res == src.res) &&
            menu.items[k].vjsSelected == menu.items[k].ariaSelected
        {
          menu.items[i].CheckIfSelected(src);
          i := i + 1;
        }
      }
    }

    /** What a real swap to the source now current leaves behind, given the
        state before it. */
    ghost predicate Swapped(time0: real, paused0: bool, plays0: nat, started0: bool,
                            changes0: seq<Source>, switcher0: MenuButton?,
                            attached0: set<MenuButton>, label0: string)
      reads this, switcher, if switcher == null then [] else switcher.items
    {
      currentSrc != null && mediaSrc == currentSrc && !bigPlayVisible &&
      time == time0 && paused == paused0 &&
      playRequests == plays0 + (if paused0 then 0 else 1) &&
      hasStartedMarker == (started0 || paused0) &&
      changes == changes0 + [currentSrc] &&
      switcher == switcher0 && attached == attached0 &&
      (switcher != null ==> Announced(switcher, currentSrc, label0))
    }

    /** `changeSrc(src)`: nothing at all happens when `src` is the very object
        already current; otherwise the source is swapped while the position
        and the paused/playing state survive the reload. */
    method ChangeSrc(src: Source)
      requires Valid()
      modifies this, switcher, MenuItems()
      ensures Valid()
      ensures src == old(currentSrc) ==>
                unchanged(this) && unchanged(MenuItems()) && (switcher != null ==> unchanged(switcher))
      ensures src != old(currentSrc) ==>
                currentSrc == src &&
                Swapped(old(time), old(paused), old(playRequests), old(hasStartedMarker), old(changes),
                        old(switcher), old(attached), old(ShownValue()))
    {
      if src == currentSrc {
        return;
      }
      bigPlayVisible := false;
      var currentTime := time;
      var isPaused := paused;
      SetSrc(src);
      SetCurrentTime(currentTime);
      if !isPaused {
        Play();
      } else {
        hasStartedMarker := true;
      }
    }

    /** `updateSrc(sources)`: dispose the previous menu, sort the sources,
        attach a new menu for them and set the source `chooseSrc` picks. */
    method UpdateSrc(sources: seq<Source>)
      requires Valid() && |sources| > 0
      modifies this, switcher
      ensures Valid()
      ensures old(switcher) != null ==> old(switcher).disposed
      ensures switcher != null && fresh(switcher) && attached == old(attached) + {switcher}
      ensures switcher.sources == SortSources(sources) && |switcher.items| == |sources|
      ensures forall i :: 0 <= i < |sources| ==> Mirrors(switcher.items[i], SortSources(sources)[i])
      ensures currentSrc != null && currentSrc == DefaultSource(SortSources(sources), defaultRes)
      ensures mediaSrc == currentSrc && time == 0.0 && paused
      ensures changes == old(changes) + [currentSrc]
      ensures Announced(switcher, currentSrc, "")
      ensures playRequests == old(playRequests) && hasStartedMarker == old(hasStartedMarker)
      ensures bigPlayVisible == old(bigPlayVisible)
    {
      var sorted := SortSources(sources);
      ReplaceMenu(sorted);
      assert ShownValue() == "";
      var chosen := ChooseSrc(sorted, defaultRes);
      SetSrc(chosen);
    }

    /** The menu part of `updateSrc`: dispose the menu in the control-bar slot,
        if any, and attach a new one for `sorted`. */
    method ReplaceMenu(sorted: seq<Source>)
      requires Valid()
      modifies this`switcher, this`attached, switcher
      ensures Valid()
      ensures old(switcher) != null ==> old(switcher).disposed
      ensures switcher != null && fresh(switcher) && attached == old(attached) + {switcher}
      ensures switcher.sources == sorted && |switcher.items| == |sorted| && switcher.valueLabel == ""
      ensures forall i :: 0 <= i < |sorted| ==> fresh(switcher.items[i]) && Mirrors(switcher.items[i], sorted[i])
    {
      if switcher != null {
        switcher.Dispose();
        switcher := null;
      }
      var menu := new MenuButton(sorted);
      switcher := menu;
      attached := attached + {menu};
    }
  }

  /** The slot invariant read as a count: of all the menus ever attached,
      only the one in the slot is still live. */
  lemma AtMostOneLiveMenu(player: Player)
    requires player.Valid()
    ensures forall m :: m in player.attached && !m.disposed ==> m == player.switcher
    ensures forall m, n :: m in player.attached && n in player.attached && !m.disposed && !n.disposed ==> m == n
  {
  }

  /** `videoplayer(elt)`: the player of the page, with the switcher plugin
      configured with `defaultRes: "512"`. The plugin body runs at once: when
      the video element holds more than one `<source>` tag (`tags`, in
      document order), it hands them to `updateSrc`, which attaches the menu
      and sets the default source; otherwise the player keeps no menu and no
      switcher source. */
  method VideoPlayer(tags: seq<Source>) returns (player: Player)
    ensures fresh(player) && player.Valid()
    ensures player.defaultRes == DefaultRes
    ensures player.time == 0.0 && player.paused && player.playRequests == 0
    ensures player.bigPlayVisible && !player.hasStartedMarker
    ensures |tags| <= 1 ==>
              player.switcher == null && player.currentSrc == null && player.changes == [] &&
              player.attached == {}
    ensures |tags| > 1 ==>
              player.switcher != null && fresh(player.switcher) && player.attached == {player.switcher} &&
              player.switcher.sources == SortSources(tags) && |player.switcher.items| == |tags| &&
              (forall i :: 0 <= i < |tags| ==> Mirrors(player.switcher.items[i], SortSources(tags)[i])) &&
              player.currentSrc == DefaultSource(SortSources(tags), DefaultRes) &&
              player.currentSrc != null && player.mediaSrc == player.currentSrc &&
              player.changes == [player.currentSrc] &&
              Announced(player.switcher, player.currentSrc, "")
  {
    player := new Player(DefaultRes);
    if |tags| > 1 {
      player.UpdateSrc(tags);
    }
  }
}
