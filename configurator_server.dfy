/**
 * The configurator's bookkeeping around the file system and systemd: tearing
 * down the services of the old descriptors, writing one descriptor per asset
 * and quantity and starting its service, and working out which composite
 * metrics are produced afterwards and which became unavailable.
 *
 * The directory listing, the file writes and the `systemctl` calls are not
 * performed: a listing is an input, whether a write succeeds is an oracle on
 * the full path, and every effect is reported as an `Action` in the order the
 * configurator performs it.
 */
module ConfiguratorServer {
  import opened Wrappers
  import opened ConfiguratorNaming

  /** An effect on the system, in the order it happens. */
  datatype Action =
    | Stop(service: string)
    | Disable(service: string)
    | Remove(file: string)
    | Write(path: string, contents: string)
    | Enable(service: string)
    | Start(service: string)

  /**
   * What listing the configuration directory gives: the directory cannot be
   * opened, it cannot be listed, or the names of its files relative to it.
   */
  datatype Listing = NoDir | NoList | Files(names: seq<string>)

  // ---------------------------------------------------------------------------
  // Teardown of the old descriptors

  /** Stop, disable and remove, for every `.cfg` name in listing order. */
  function TeardownActions(names: seq<string>): seq<Action> {
    if names == [] then []
    else
      var n := names[|names| - 1];
      TeardownActions(names[..|names| - 1])
        + (if IsCfgName(n) then [Stop(CfgService(n)), Disable(CfgService(n)), Remove(n)] else [])
  }

  /**
   * Teardown removes exactly the `.cfg` files of the listing, stops and
   * disables the service of each, and stops or disables nothing else.
   */
  lemma {:induction false} TeardownActionsSpec(names: seq<string>)
    ensures forall n :: Remove(n) in TeardownActions(names) <==> n in names && IsCfgName(n)
    ensures forall n :: n in names && IsCfgName(n) ==>
      Stop(CfgService(n)) in TeardownActions(names) && Disable(CfgService(n)) in TeardownActions(names)
    ensures forall s :: Stop(s) in TeardownActions(names) ==>
      exists n :: n in names && IsCfgName(n) && s == CfgService(n)
    ensures forall s :: Disable(s) in TeardownActions(names) ==>
      exists n :: n in names && IsCfgName(n) && s == CfgService(n)
    ensures forall a :: a in TeardownActions(names) ==> a.Stop? || a.Disable? || a.Remove?
  {
    if names != [] {
      var init := names[..|names| - 1];
      var n := names[|names| - 1];
      TeardownActionsSpec(init);
      assert names == init + [n];
      forall m | m in init
        ensures m in names
      {
      }
    }
  }

  /** `s_remove_and_stop`: 1 when the directory cannot be read, else 0 after the teardown. */
  method RemoveAndStop(listing: Listing) returns (rc: int, actions: seq<Action>)
    ensures !listing.Files? ==> rc == 1 && actions == []
    ensures listing.Files? ==> rc == 0 && actions == TeardownActions(listing.names)
  {
    if listing.NoDir? || listing.NoList? {
      return 1, [];
    }
    var files := listing.names;
    actions := [];
    var i := 0;
    while i < |files|
      invariant 0 <= i <= |files|
      invariant actions == TeardownActions(files[..i])
    {
      var filename := files[i];
      if IsCfgName(filename) {
        var service := ServicePrefix + filename[..|filename| - 4];
        actions := actions + [Stop(service), Disable(service), Remove(filename)];
      }
      assert files[..i + 1][..i] == files[..i];
      i := i + 1;
    }
    assert files[..i] == files;
    rc := 0;
  }

  /**
   * A descriptor written for an asset is recognised on the next teardown,
   * which stops and disables the very service that was started for it.
   */
  lemma TeardownStopsGenerated(names: seq<string>, q: Quantity, sensorFunction: Option<string>, asset: string)
    requires forall i :: 0 <= i < |asset| ==> !IsLineTerminator(asset[i])
    requires sensorFunction.Some? ==> forall i :: 0 <= i < |sensorFunction.value| ==> !IsLineTerminator(sensorFunction.value[i])
    requires FileBase(q, sensorFunction, asset) + ".cfg" in names
    ensures Stop(ServiceName(FileBase(q, sensorFunction, asset))) in TeardownActions(names)
    ensures Disable(ServiceName(FileBase(q, sensorFunction, asset))) in TeardownActions(names)
    ensures Remove(FileBase(q, sensorFunction, asset) + ".cfg") in TeardownActions(names)
  {
    GeneratedFileTornDown(q, sensorFunction, asset);
    TeardownActionsSpec(names);
  }

  // ---------------------------------------------------------------------------
  // Generation for one asset

  /** Whether writing the descriptor of a quantity succeeds. */
  predicate Written(dir: string, q: Quantity, sensorFunction: Option<string>, asset: string, writeOk: string -> bool) {
    writeOk(ConfigPath(dir, FileBase(q, sensorFunction, asset)))
  }

  /** The effects for one quantity: the write, then enable and start when it succeeded. */
  function QuantityActions(dir: string, q: Quantity, sensorFunction: Option<string>, asset: string,
                           sensors: seq<Sensor>, writeOk: string -> bool): seq<Action>
  {
    var base := FileBase(q, sensorFunction, asset);
    [Write(ConfigPath(dir, base), Contents(q, sensorFunction, asset, sensors))]
      + (if Written(dir, q, sensorFunction, asset, writeOk)
         then [Enable(ServiceName(base)), Start(ServiceName(base))] else [])
  }

  /** The effects of `s_generate_and_start`: nothing for no sensors, else temperature then humidity. */
  function GenerateActions(dir: string, sensorFunction: Option<string>, asset: string,
                           sensors: seq<Sensor>, writeOk: string -> bool): seq<Action>
  {
    if sensors == [] then []
    else QuantityActions(dir, Temperature, sensorFunction, asset, sensors, writeOk)
         + QuantityActions(dir, Humidity, sensorFunction, asset, sensors, writeOk)
  }

  /**
   * The result topics `s_generate_and_start` adds to the produced set: that
   * of each quantity whose descriptor was written, and none for no sensors.
   */
  function Generated(dir: string, sensorFunction: Option<string>, asset: string,
                     sensors: seq<Sensor>, writeOk: string -> bool): set<string>
  {
    if sensors == [] then {}
    else
      (if Written(dir, Temperature, sensorFunction, asset, writeOk) then {ResultTopic(Temperature, sensorFunction, asset)} else {})
      + (if Written(dir, Humidity, sensorFunction, asset, writeOk) then {ResultTopic(Humidity, sensorFunction, asset)} else {})
  }

  /**
   * A topic is generated exactly when the list is not empty and it is the
   * result topic of a quantity whose descriptor was written.
   */
  lemma GeneratedMembers(dir: string, sensorFunction: Option<string>, asset: string,
                         sensors: seq<Sensor>, writeOk: string -> bool, t: string)
    ensures t in Generated(dir, sensorFunction, asset, sensors, writeOk) <==>
      |sensors| > 0 && exists q :: t == ResultTopic(q, sensorFunction, asset) && Written(dir, q, sensorFunction, asset, writeOk)
  {
    if |sensors| > 0 && t !in Generated(dir, sensorFunction, asset, sensors, writeOk) {
      forall q | t == ResultTopic(q, sensorFunction, asset)
        ensures !Written(dir, q, sensorFunction, asset, writeOk)
      {
      }
    }
  }

  lemma QuantityNamesDiffer(sensorFunction: Option<string>, asset: string)
    ensures FileBase(Temperature, sensorFunction, asset) != FileBase(Humidity, sensorFunction, asset)
    ensures ServiceName(FileBase(Temperature, sensorFunction, asset)) != ServiceName(FileBase(Humidity, sensorFunction, asset))
  {
    assert |FileBase(Temperature, sensorFunction, asset)| == |FileBase(Humidity, sensorFunction, asset)| + 3;
  }

  /** The services one quantity's effects start: its own, when its descriptor was written. */
  lemma QuantityStarts(dir: string, q: Quantity, sensorFunction: Option<string>, asset: string,
                       sensors: seq<Sensor>, writeOk: string -> bool, service: string)
    ensures Start(service) in QuantityActions(dir, q, sensorFunction, asset, sensors, writeOk)
        <==> Written(dir, q, sensorFunction, asset, writeOk) && service == ServiceName(FileBase(q, sensorFunction, asset))
  {
    var base := FileBase(q, sensorFunction, asset);
    var tail := if Written(dir, q, sensorFunction, asset, writeOk) then [Enable(ServiceName(base)), Start(ServiceName(base))] else [];
    assert QuantityActions(dir, q, sensorFunction, asset, sensors, writeOk)
        == [Write(ConfigPath(dir, base), Contents(q, sensorFunction, asset, sensors))] + tail;
  }

  /** A quantity's service is started exactly when its result topic is reported as generated. */
  lemma StartedIffGenerated(dir: string, q: Quantity, sensorFunction: Option<string>, asset: string,
                            sensors: seq<Sensor>, writeOk: string -> bool)
    ensures Start(ServiceName(FileBase(q, sensorFunction, asset))) in GenerateActions(dir, sensorFunction, asset, sensors, writeOk)
        <==> ResultTopic(q, sensorFunction, asset) in Generated(dir, sensorFunction, asset, sensors, writeOk)
  {
    var service := ServiceName(FileBase(q, sensorFunction, asset));
    QuantityNamesDiffer(sensorFunction, asset);
    ResultTopicsDiffer(sensorFunction, asset);
    QuantityStarts(dir, Temperature, sensorFunction, asset, sensors, writeOk, service);
    QuantityStarts(dir, Humidity, sensorFunction, asset, sensors, writeOk, service);
    if sensors != [] {
      InConcat(Start(service), QuantityActions(dir, Temperature, sensorFunction, asset, sensors, writeOk),
               QuantityActions(dir, Humidity, sensorFunction, asset, sensors, writeOk));
    }
  }

  /** A started service's descriptor was written, with the filled template, among the same effects. */
  lemma StartedAfterWrite(dir: string, q: Quantity, sensorFunction: Option<string>, asset: string,
                          sensors: seq<Sensor>, writeOk: string -> bool)
    requires Start(ServiceName(FileBase(q, sensorFunction, asset))) in GenerateActions(dir, sensorFunction, asset, sensors, writeOk)
    ensures Write(ConfigPath(dir, FileBase(q, sensorFunction, asset)), Contents(q, sensorFunction, asset, sensors))
            in GenerateActions(dir, sensorFunction, asset, sensors, writeOk)
  {
    var ta := QuantityActions(dir, Temperature, sensorFunction, asset, sensors, writeOk);
    var ha := QuantityActions(dir, Humidity, sensorFunction, asset, sensors, writeOk);
    var w := Write(ConfigPath(dir, FileBase(q, sensorFunction, asset)), Contents(q, sensorFunction, asset, sensors));
    InConcat(w, ta, ha);
    assert w == QuantityActions(dir, q, sensorFunction, asset, sensors, writeOk)[0];
  }

  /** The temperature and humidity result topics of one asset differ. */
  lemma ResultTopicsDiffer(sensorFunction: Option<string>, asset: string)
    ensures ResultTopic(Temperature, sensorFunction, asset) != ResultTopic(Humidity, sensorFunction, asset)
  {
    assert ResultTopic(Temperature, sensorFunction, asset)[8] != ResultTopic(Humidity, sensorFunction, asset)[8];
  }

  /** Membership in a concatenation of two effect logs. */
  lemma InConcat(x: Action, a: seq<Action>, b: seq<Action>)
    ensures x in a + b <==> x in a || x in b
  {
  }

  /** Regrouping one step of the `in` text. */
  lemma OpenSnoc(j: string, jNew: string, t: string, empty: bool)
    requires jNew == (if empty then Quote(t) else j + ", " + Quote(t))
    requires empty ==> j == ""
    ensures "[ " + jNew == "[ " + j + (if empty then "" else ", ") + ("\"" + t + "\"")
  {
  }

  /** The opened `in` text of a longer list: a separator unless it was empty, then the quoted topic. */
  lemma InTextSnoc(q: Quantity, before: seq<Sensor>, item: Sensor)
    ensures "[ " + JoinQuoted(Topics(q, before + [item]))
         == "[ " + JoinQuoted(Topics(q, before)) + (if before == [] then "" else ", ")
            + ("\"" + InputTopic(q, item) + "\"")
  {
    var ts := Topics(q, before);
    var t := InputTopic(q, item);
    assert (before + [item])[..|before|] == before;
    assert Topics(q, before + [item]) == ts + [t];
    JoinQuotedSnoc(ts, t);
    OpenSnoc(JoinQuoted(ts), JoinQuoted(ts + [t]), t, ts == []);
  }

  /** Regrouping one step of the offsets text. */
  lemma LineSnoc(h: string, l: string, line: string)
    ensures h + (l + line) == h + l + line
  {
  }

  /** The offsets text of a longer list: one more line. */
  lemma OffsetsTextSnoc(q: Quantity, before: seq<Sensor>, item: Sensor)
    ensures OffsetsText(q, before + [item])
         == OffsetsText(q, before) + ("    offsets['" + InputTopic(q, item) + "'] = " + Attribute(item.ext, OffsetKey(q), "0.0") + ";\n")
  {
    assert (before + [item])[..|before|] == before;
    LineSnoc(OffsetsHeader, OffsetLines(q, before), OffsetLine(q, item));
  }

  /** Extending a prefix by the next element. */
  lemma PrefixSnoc<T>(s: seq<T>, i: nat)
    requires i < |s|
    ensures s[..i + 1] == s[..i] + [s[i]]
  {
  }

  /**
   * The loop body of the input-text building for one quantity: the separator
   * unless this is the first sensor, the quoted input topic, and the
   * sensor's offset line.
   */
  method AppendSensor(q: Quantity, ghost before: seq<Sensor>, item: Sensor, first: bool, inText: string, offsets: string)
    returns (newIn: string, newOffsets: string)
    requires first <==> before == []
    requires inText == "[ " + JoinQuoted(Topics(q, before))
    requires offsets == OffsetsText(q, before)
    ensures newIn == "[ " + JoinQuoted(Topics(q, before + [item]))
    ensures newOffsets == OffsetsText(q, before + [item])
  {
    newIn := inText;
    if !first {
      newIn := newIn + ", ";
    }
    var topic := InputTopic(q, item);
    newIn := newIn + ("\"" + topic + "\"");
    newOffsets := offsets + ("    offsets['" + topic + "'] = " + Attribute(item.ext, OffsetKey(q), "0.0") + ";\n");
    InTextSnoc(q, before, item);
    OffsetsTextSnoc(q, before, item);
  }

  /**
   * The lines 158-196 of `s_generate_and_start`: the `in` texts and offsets
   * texts of both quantities, built in one pass over the sensor list.
   */
  method BuildInputs(sensors: seq<Sensor>) returns (tempIn: string, humIn: string, tempOffsets: string, humOffsets: string)
    ensures tempIn == InText(Temperature, sensors) && humIn == InText(Humidity, sensors)
    ensures tempOffsets == OffsetsText(Temperature, sensors) && humOffsets == OffsetsText(Humidity, sensors)
  {
    tempIn, humIn := "[ ", "[ ";
    tempOffsets := OffsetsHeader;
    humOffsets := tempOffsets;
    var first := true;
    var i := 0;
    while i < |sensors|
      invariant 0 <= i <= |sensors|
      invariant first <==> i == 0
      invariant tempIn == "[ " + JoinQuoted(Topics(Temperature, sensors[..i]))
      invariant humIn == "[ " + JoinQuoted(Topics(Humidity, sensors[..i]))
      invariant tempOffsets == OffsetsText(Temperature, sensors[..i])
      invariant humOffsets == OffsetsText(Humidity, sensors[..i])
    {
      var item := sensors[i];
      PrefixSnoc(sensors, i);
      tempIn, tempOffsets := AppendSensor(Temperature, sensors[..i], item, first, tempIn, tempOffsets);
      humIn, humOffsets := AppendSensor(Humidity, sensors[..i], item, first, humIn, humOffsets);
      first := false;
      i := i + 1;
    }
    assert sensors[..i] == sensors;
    tempIn := tempIn + " ]";
    humIn := humIn + " ]";
  }

  /**
   * Fill the template for one quantity, write it, and enable and start the
   * service when the write succeeded; `started` tells whether it did.
   */
  method WriteDescriptor(dir: string, q: Quantity, sensorFunction: Option<string>, asset: string,
                         ghost sensors: seq<Sensor>, inText: string, offsets: string, writeOk: string -> bool)
    returns (started: bool, actions: seq<Action>)
    requires inText == InText(q, sensors) && offsets == OffsetsText(q, sensors)
    ensures started == Written(dir, q, sensorFunction, asset, writeOk)
    ensures actions == QuantityActions(dir, q, sensorFunction, asset, sensors, writeOk)
  {
    var contents := Template;
    contents := ReplaceFirst(contents, InPlaceholder, inText);
    contents := ReplaceFirst(contents, OffsetsPlaceholder, offsets);
    var resultTopic := ResultTopic(q, sensorFunction, asset);
    contents := ReplaceFirst(contents, ResultTopicPlaceholder, resultTopic);
    contents := ReplaceFirst(contents, UnitsPlaceholder, Units(q));
    FillFour(Template, Substitutions(q, sensorFunction, asset, sensors));
    assert contents == Contents(q, sensorFunction, asset, sensors);
    var filename := asset + Qualifier(sensorFunction) + "-" + QuantityName(q);
    var fullpath := dir + "/" + filename + ".cfg";
    var service := ServicePrefix + filename;
    assert filename == FileBase(q, sensorFunction, asset);
    assert fullpath == ConfigPath(dir, filename) && service == ServiceName(filename);
    actions := [Write(fullpath, contents)];
    started := writeOk(fullpath);
    if started {
      actions := actions + [Enable(service), Start(service)];
    }
  }

  /**
   * `s_generate_and_start`: for a non-empty sensor list, one descriptor and
   * service per quantity; each written one adds its result topic.
   */
  method GenerateAndStart(dir: string, sensorFunction: Option<string>, asset: string, sensors: seq<Sensor>,
                          writeOk: string -> bool, generated: set<string>)
    returns (newGenerated: set<string>, actions: seq<Action>)
    ensures newGenerated == generated + Generated(dir, sensorFunction, asset, sensors, writeOk)
    ensures actions == GenerateActions(dir, sensorFunction, asset, sensors, writeOk)
  {
    newGenerated, actions := generated, [];
    if |sensors| == 0 {
      return;
    }
    var tempIn, humIn, tempOffsets, humOffsets := BuildInputs(sensors);
    var tempStarted, tempActions := WriteDescriptor(dir, Temperature, sensorFunction, asset, sensors, tempIn, tempOffsets, writeOk);
    var tempGenerated := if tempStarted then {ResultTopic(Temperature, sensorFunction, asset)} else {};
    var humStarted, humActions := WriteDescriptor(dir, Humidity, sensorFunction, asset, sensors, humIn, humOffsets, writeOk);
    var humGenerated := if humStarted then {ResultTopic(Humidity, sensorFunction, asset)} else {};
    UnionAssoc(generated, tempGenerated, humGenerated);
    newGenerated := generated + tempGenerated + humGenerated;
    actions := tempActions + humActions;
  }

  lemma UnionAssoc(a: set<string>, b: set<string>, c: set<string>)
    ensures a + b + c == a + (b + c)
  {
  }

  // ---------------------------------------------------------------------------
  // Regeneration over all assets

  /**
   * An asset as the regeneration sees it after sensors were reassigned: its
   * name, its aux attributes, and the sensors assigned to it as input,
   * output and without a function (`None` when the lookup gives no list).
   */
  datatype AssetView = AssetView(
    name: string,
    aux: map<string, string>,
    inputSensors: Option<seq<Sensor>>,
    outputSensors: Option<seq<Sensor>>,
    plainSensors: Option<seq<Sensor>>)

  /** Racks get input and output averages, every other asset a plain one. */
  predicate IsRack(a: AssetView) {
    Attribute(a.aux, "type", "") == "rack"
  }

  function OptActions(dir: string, sensorFunction: Option<string>, asset: string,
                      sensors: Option<seq<Sensor>>, writeOk: string -> bool): seq<Action>
  {
    match sensors
    case None => []
    case Some(s) => GenerateActions(dir, sensorFunction, asset, s, writeOk)
  }

  function OptGenerated(dir: string, sensorFunction: Option<string>, asset: string,
                        sensors: Option<seq<Sensor>>, writeOk: string -> bool): set<string>
  {
    match sensors
    case None => {}
    case Some(s) => Generated(dir, sensorFunction, asset, s, writeOk)
  }

  const InputFunction: Option<string> := Some("input")
  const OutputFunction: Option<string> := Some("output")

  /** The effects of generating for one asset. */
  function AssetActions(dir: string, a: AssetView, writeOk: string -> bool): seq<Action> {
    if IsRack(a) then
      OptActions(dir, InputFunction, a.name, a.inputSensors, writeOk)
        + OptActions(dir, OutputFunction, a.name, a.outputSensors, writeOk)
    else OptActions(dir, None, a.name, a.plainSensors, writeOk)
  }

  /** The result topics generated for one asset. */
  function AssetGenerated(dir: string, a: AssetView, writeOk: string -> bool): set<string> {
    if IsRack(a) then
      OptGenerated(dir, InputFunction, a.name, a.inputSensors, writeOk)
        + OptGenerated(dir, OutputFunction, a.name, a.outputSensors, writeOk)
    else OptGenerated(dir, None, a.name, a.plainSensors, writeOk)
  }

  /** The effects of generating for every asset, in asset order. */
  function PlannedActions(dir: string, assets: seq<AssetView>, writeOk: string -> bool): seq<Action> {
    if assets == [] then []
    else PlannedActions(dir, assets[..|assets| - 1], writeOk) + AssetActions(dir, assets[|assets| - 1], writeOk)
  }

  /** The metrics available after generating for every asset. */
  function Available(dir: string, assets: seq<AssetView>, writeOk: string -> bool): set<string> {
    if assets == [] then {}
    else Available(dir, assets[..|assets| - 1], writeOk) + AssetGenerated(dir, assets[|assets| - 1], writeOk)
  }

  /** Every topic generated for one asset is its result topic, with the function its kind calls for. */
  lemma AssetGeneratedSound(dir: string, a: AssetView, writeOk: string -> bool, t: string)
    requires t in AssetGenerated(dir, a, writeOk)
    ensures exists q, f :: t == ResultTopic(q, f, a.name)
                        && (f == None <==> !IsRack(a))
                        && (f.Some? ==> f == InputFunction || f == OutputFunction)
  {
    if IsRack(a) {
      if t in OptGenerated(dir, InputFunction, a.name, a.inputSensors, writeOk) {
        GeneratedMembers(dir, InputFunction, a.name, a.inputSensors.value, writeOk, t);
        var q :| t == ResultTopic(q, InputFunction, a.name) && Written(dir, q, InputFunction, a.name, writeOk);
        assert t == ResultTopic(q, InputFunction, a.name);
      } else {
        GeneratedMembers(dir, OutputFunction, a.name, a.outputSensors.value, writeOk, t);
        var q :| t == ResultTopic(q, OutputFunction, a.name) && Written(dir, q, OutputFunction, a.name, writeOk);
        assert t == ResultTopic(q, OutputFunction, a.name);
      }
    } else {
      GeneratedMembers(dir, None, a.name, a.plainSensors.value, writeOk, t);
      var q :| t == ResultTopic(q, None, a.name) && Written(dir, q, None, a.name, writeOk);
      assert t == ResultTopic(q, None, a.name);
    }
  }

  /**
   * Every available metric is the result topic of one of the assets, with
   * the function its kind of asset calls for.
   */
  lemma {:induction false} AvailableSound(dir: string, assets: seq<AssetView>, writeOk: string -> bool, t: string)
    requires t in Available(dir, assets, writeOk)
    ensures exists i, q, f :: 0 <= i < |assets| && t == ResultTopic(q, f, assets[i].name)
                           && (f == None <==> !IsRack(assets[i]))
                           && (f.Some? ==> f == InputFunction || f == OutputFunction)
  {
    var init := assets[..|assets| - 1];
    var a := assets[|assets| - 1];
    if t in Available(dir, init, writeOk) {
      AvailableSound(dir, init, writeOk, t);
      var i, q, f :| 0 <= i < |init| && t == ResultTopic(q, f, init[i].name)
                   && (f == None <==> !IsRack(init[i]))
                   && (f.Some? ==> f == InputFunction || f == OutputFunction);
      assert init[i] == assets[i];
    } else {
      AssetGeneratedSound(dir, a, writeOk, t);
      var q, f :| t == ResultTopic(q, f, a.name)
                  && (f == None <==> !IsRack(a))
                  && (f.Some? ==> f == InputFunction || f == OutputFunction);
      assert 0 <= |assets| - 1 < |assets| && assets[|assets| - 1] == a;
    }
  }

  /** Whatever one asset generates is available after the whole pass. */
  lemma {:induction false} AvailableComplete(dir: string, assets: seq<AssetView>, writeOk: string -> bool, i: nat, t: string)
    requires i < |assets|
    requires t in AssetGenerated(dir, assets[i], writeOk)
    ensures t in Available(dir, assets, writeOk)
  {
    if i < |assets| - 1 {
      var init := assets[..|assets| - 1];
      assert init[i] == assets[i];
      AvailableComplete(dir, init, writeOk, i, t);
    }
  }

  /** Lines 331-353 of `s_regenerate`: the generation calls for one asset, by its kind. */
  method GenerateForAsset(cfgdir: string, asset: AssetView, writeOk: string -> bool, available: set<string>)
    returns (newAvailable: set<string>, actions: seq<Action>)
    ensures newAvailable == available + AssetGenerated(cfgdir, asset, writeOk)
    ensures actions == AssetActions(cfgdir, asset, writeOk)
  {
    if IsRack(asset) {
      var inGenerated := OptGenerated(cfgdir, InputFunction, asset.name, asset.inputSensors, writeOk);
      var outGenerated := OptGenerated(cfgdir, OutputFunction, asset.name, asset.outputSensors, writeOk);
      var inputAvailable, inputActions := available, [];
      if asset.inputSensors.Some? {
        inputAvailable, inputActions := GenerateAndStart(cfgdir, InputFunction, asset.name, asset.inputSensors.value, writeOk, available);
      }
      assert inputAvailable == available + inGenerated;
      assert inputActions == OptActions(cfgdir, InputFunction, asset.name, asset.inputSensors, writeOk);
      var outputAvailable, outputActions := inputAvailable, [];
      if asset.outputSensors.Some? {
        outputAvailable, outputActions := GenerateAndStart(cfgdir, OutputFunction, asset.name, asset.outputSensors.value, writeOk, inputAvailable);
      }
      assert outputAvailable == available + inGenerated + outGenerated;
      assert outputActions == OptActions(cfgdir, OutputFunction, asset.name, asset.outputSensors, writeOk);
      UnionAssoc(available, inGenerated, outGenerated);
      newAvailable, actions := outputAvailable, inputActions + outputActions;
    } else {
      newAvailable, actions := available, [];
      if asset.plainSensors.Some? {
        newAvailable, actions := GenerateAndStart(cfgdir, None, asset.name, asset.plainSensors.value, writeOk, available);
      }
    }
  }

  /** One more asset extends the plan and the available metrics by that asset's share. */
  lemma PlanSnoc(dir: string, assets: seq<AssetView>, writeOk: string -> bool, i: nat)
    requires i < |assets|
    ensures PlannedActions(dir, assets[..i + 1], writeOk) == PlannedActions(dir, assets[..i], writeOk) + AssetActions(dir, assets[i], writeOk)
    ensures Available(dir, assets[..i + 1], writeOk) == Available(dir, assets[..i], writeOk) + AssetGenerated(dir, assets[i], writeOk)
  {
    assert assets[..i + 1][..i] == assets[..i];
  }

  /** Lines 328-355 of `s_regenerate`: generation for every asset, in asset order. */
  method GenerateAll(cfgdir: string, all: seq<AssetView>, writeOk: string -> bool)
    returns (metricsAvailable: set<string>, actions: seq<Action>)
    ensures metricsAvailable == Available(cfgdir, all, writeOk)
    ensures actions == PlannedActions(cfgdir, all, writeOk)
  {
    metricsAvailable, actions := {}, [];
    var i := 0;
    while i < |all|
      invariant 0 <= i <= |all|
      invariant metricsAvailable == Available(cfgdir, all[..i], writeOk)
      invariant actions == PlannedActions(cfgdir, all[..i], writeOk)
    {
      var acts;
      metricsAvailable, acts := GenerateForAsset(cfgdir, all[i], writeOk, metricsAvailable);
      actions := actions + acts;
      PlanSnoc(cfgdir, all, writeOk, i);
      i := i + 1;
    }
    assert all[..i] == all;
  }

  /**
   * `s_regenerate`. All produced metrics start out as possibly unavailable.
   * When the teardown fails nothing is generated; when the asset list cannot
   * be had nothing is generated either; in both cases the produced set stays.
   * Otherwise every asset is generated for, the new produced set is what was
   * generated, and the unavailable ones are the old produced ones not
   * generated again.
   */
  method Regenerate(cfgdir: string, produced: set<string>, listing: Listing,
                    assets: Option<seq<AssetView>>, writeOk: string -> bool)
    returns (unavailable: set<string>, newProduced: set<string>, actions: seq<Action>)
    ensures !listing.Files? ==> unavailable == produced && newProduced == produced && actions == []
    ensures listing.Files? && assets.None? ==>
      unavailable == produced && newProduced == produced && actions == TeardownActions(listing.names)
    ensures listing.Files? && assets.Some? ==>
      && newProduced == Available(cfgdir, assets.value, writeOk)
      && unavailable == produced - newProduced
      && actions == TeardownActions(listing.names) + PlannedActions(cfgdir, assets.value, writeOk)
  {
    unavailable := produced;
    newProduced := produced;
    var rv;
    rv, actions := RemoveAndStop(listing);
    if rv != 0 {
      return;
    }
    if assets.None? {
      return;
    }
    var planned;
    var metricsAvailable;
    metricsAvailable, planned := GenerateAll(cfgdir, assets.value, writeOk);
    actions := actions + planned;
    var pending := metricsAvailable;
    while pending != {}
      invariant pending <= metricsAvailable
      invariant unavailable == produced - (metricsAvailable - pending)
      decreases |pending|
    {
      var oneMetric :| oneMetric in pending;
      unavailable := unavailable - {oneMetric};
      pending := pending - {oneMetric};
    }
    newProduced := metricsAvailable;
  }

  /** The functions a generated descriptor can carry: none, input or output. */
  predicate KnownFunction(f: Option<string>) {
    f == None || f == InputFunction || f == OutputFunction
  }

  /** The part of a result topic before the asset name holds no `@`. */
  lemma KnownPrefixNoAt(q: Quantity, f: Option<string>)
    requires KnownFunction(f)
    ensures '@' !in "average." + QuantityName(q) + Qualifier(f)
  {
    var a, n, g := "average.", QuantityName(q), Qualifier(f);
    assert '@' !in a;
    assert '@' !in n by {
      match q
      case Temperature =>
      case Humidity =>
    }
    assert '@' !in g by {
      if f == InputFunction {
        assert g == "-input";
      } else if f == OutputFunction {
        assert g == "-output";
      }
    }
    NoAtConcat(a, n);
    NoAtConcat(a + n, g);
  }

  lemma NoAtConcat(a: string, b: string)
    requires '@' !in a && '@' !in b
    ensures '@' !in a + b
  {
  }

  /**
   * Two result topics with known functions are equal only for the same
   * asset, whatever characters the asset names hold.
   */
  lemma ResultTopicAssetUnique(q: Quantity, f: Option<string>, a: string, q': Quantity, f': Option<string>, b: string)
    requires KnownFunction(f) && KnownFunction(f')
    requires ResultTopic(q, f, a) == ResultTopic(q', f', b)
    ensures a == b
  {
    KnownPrefixNoAt(q, f);
    KnownPrefixNoAt(q', f');
    AtJoinInjective("average." + QuantityName(q) + Qualifier(f), "average." + QuantityName(q') + Qualifier(f'), a, b);
  }

  /**
   * A metric that was produced for an asset absent from the asset list is
   * reported unavailable after a successful regeneration.
   */
  lemma DroppedAssetUnavailable(dir: string, produced: set<string>, assets: seq<AssetView>, writeOk: string -> bool,
                                q: Quantity, sensorFunction: Option<string>, asset: string)
    requires KnownFunction(sensorFunction)
    requires forall i :: 0 <= i < |assets| ==> assets[i].name != asset
    requires ResultTopic(q, sensorFunction, asset) in produced
    ensures ResultTopic(q, sensorFunction, asset) in produced - Available(dir, assets, writeOk)
  {
    var t := ResultTopic(q, sensorFunction, asset);
    if t in Available(dir, assets, writeOk) {
      AvailableSound(dir, assets, writeOk, t);
      var i, q', f :| 0 <= i < |assets| && t == ResultTopic(q', f, assets[i].name)
                     && (f == None <==> !IsRack(assets[i]))
                     && (f.Some? ==> f == InputFunction || f == OutputFunction);
      ResultTopicAssetUnique(q, sensorFunction, asset, q', f, assets[i].name);
      assert false;
    }
  }
}

/**
 * The configurator selftest's second regeneration: Rack02 is still an asset
 * but its sensors have been reassigned away, Rack01 keeps its input and
 * output sensors, and every write succeeds.
 */
module ConfiguratorServerScenario {
  import opened Wrappers
  import opened ConfiguratorNaming
  import opened ConfiguratorServer

  /** The four result topics of a rack with input and output sensors. */
  function RackTopics(rack: string): set<string> {
    {ResultTopic(Temperature, InputFunction, rack), ResultTopic(Humidity, InputFunction, rack),
     ResultTopic(Temperature, OutputFunction, rack), ResultTopic(Humidity, OutputFunction, rack)}
  }

  /** The unavailable topics the selftest expects for Rack02. */
  lemma Rack02Topics()
    ensures RackTopics("Rack02") == {"average.humidity-input@Rack02", "average.temperature-input@Rack02",
                                     "average.humidity-output@Rack02", "average.temperature-output@Rack02"}
  {
    Rack02InputTemperature();
    Rack02InputHumidity();
    Rack02OutputTemperature();
    Rack02OutputHumidity();
  }

  lemma Rack02InputTemperature()
    ensures ResultTopic(Temperature, InputFunction, "Rack02") == "average.temperature-input@Rack02"
  {
  }

  lemma Rack02InputHumidity()
    ensures ResultTopic(Humidity, InputFunction, "Rack02") == "average.humidity-input@Rack02"
  {
  }

  lemma Rack02OutputTemperature()
    ensures ResultTopic(Temperature, OutputFunction, "Rack02") == "average.temperature-output@Rack02"
  {
  }

  lemma Rack02OutputHumidity()
    ensures ResultTopic(Humidity, OutputFunction, "Rack02") == "average.humidity-output@Rack02"
  {
  }

  /** Rack01 produces its four topics again and exactly Rack02's four become unavailable. */
  lemma SelftestUnavailable(dir: string, rack01: AssetView, rack02: AssetView, writeOk: string -> bool)
    requires rack01.name == "Rack01" && IsRack(rack01)
    requires rack01.inputSensors.Some? && |rack01.inputSensors.value| > 0
    requires rack01.outputSensors.Some? && |rack01.outputSensors.value| > 0
    requires rack02.name == "Rack02" && IsRack(rack02)
    requires rack02.inputSensors == None || rack02.inputSensors == Some([])
    requires rack02.outputSensors == None || rack02.outputSensors == Some([])
    requires forall p :: writeOk(p)
    ensures Available(dir, [rack01, rack02], writeOk) == RackTopics("Rack01")
    ensures RackTopics("Rack01") + RackTopics("Rack02") - Available(dir, [rack01, rack02], writeOk) == RackTopics("Rack02")
  {
    assert [rack01][..0] == [];
    assert Available(dir, [rack01], writeOk) == AssetGenerated(dir, rack01, writeOk);
    assert [rack01, rack02][..1] == [rack01];
    assert AssetGenerated(dir, rack02, writeOk) == {};
    assert Available(dir, [rack01, rack02], writeOk) == Available(dir, [rack01], writeOk) + {};
    RackTopicsDisjoint("Rack01", "Rack02");
  }

  /** Two racks with different names share no result topic. */
  lemma RackTopicsDisjoint(r1: string, r2: string)
    requires r1 != r2
    ensures RackTopics(r1) * RackTopics(r2) == {}
  {
    forall t | t in RackTopics(r1)
      ensures t !in RackTopics(r2)
    {
      var q, f := RackTopicOf(r1, t);
      if t in RackTopics(r2) {
        var q', f' := RackTopicOf(r2, t);
        ResultTopicAssetUnique(q, f, r1, q', f', r2);
        assert false;
      }
    }
  }

  /** The quantity and function of one of a rack's result topics. */
  lemma RackTopicOf(r: string, t: string) returns (q: Quantity, f: Option<string>)
    requires t in RackTopics(r)
    ensures KnownFunction(f) && t == ResultTopic(q, f, r)
  {
    if t == ResultTopic(Temperature, InputFunction, r) {
      q, f := Temperature, InputFunction;
    } else if t == ResultTopic(Humidity, InputFunction, r) {
      q, f := Humidity, InputFunction;
    } else if t == ResultTopic(Temperature, OutputFunction, r) {
      q, f := Temperature, OutputFunction;
    } else {
      q, f := Humidity, OutputFunction;
    }
  }

}
