/**
  Custom resources as stored objects: the four encoders of pkg/common/crd_helpers.go and the four
  decoders of pkg/common/crd_config.go. The four of each side repeat each other; here there is one
  of each, and the kind says which fields it handles.
 */
module CrdCodec {
  import opened Wrappers
  import opened Watcher

  // ---------------------------------------------------------------------------------------
  // Data
  // ---------------------------------------------------------------------------------------

  /** The field names the program uses. */
  datatype Key =
    | AtSpec | AtImage | AtScript | AtCommands | AtShell | AtEnv | AtResources
    | AtCpuRequest | AtMemoryRequest | AtCpuLimit | AtMemoryLimit | AtName | AtContainerPort | AtServicePort | AtMountPath | AtSize
    | AtStorageClassName | AtRestartPolicy | AtMaxRestarts | AtGracePeriod | AtSchedule | AtReplicas
    | AtPorts | AtPersistentVolumes | AtServiceName | AtHealthCheckPath | AtHealthCheckPort | AtReadinessTimeout

  /** Stored values. The keys of a `Table` are data, those of an `Object` are field names. */
  datatype Json =
    | Null | Text(s: string) | Number(n: int) | List(items: seq<Json>)
    | Object(fields: Fields) | Table(entries: map<string, Json>)

  type Fields = map<Key, Json>

  type Int32 = x: int | -0x8000_0000 <= x < 0x8000_0000

  /** Conversion of a wider integer: the low 32 bits. */
  function ToInt32(n: int): (r: Int32)
    ensures (n - r) % 0x1_0000_0000 == 0
  {
    (n + 0x8000_0000) % 0x1_0000_0000 - 0x8000_0000
  }

  datatype Resources = Resources(cpuRequest: string, memoryRequest: string, cpuLimit: string, memoryLimit: string)

  datatype Script = Script(commands: seq<string>, shell: string)

  datatype Port = Port(name: string, containerPort: Int32, servicePort: Int32)

  datatype Volume = Volume(name: string, mountPath: string, storageClassName: string, size: string)

  /** The fields of the four configuration types together; each kind leaves some at their zero. */
  datatype Settings = Settings(
    name: string, namespace: string, ref: Option<Ref>,
    image: string, script: Option<Script>, env: map<string, string>, resources: Resources,
    restartPolicy: string, maxRestarts: int, gracePeriod: int, schedule: string,
    replicas: Int32, ports: seq<Port>, volumes: seq<Volume>, serviceName: string,
    healthCheckPath: string, healthCheckPort: Int32, readinessTimeout: int)

  function Zero(name: string, namespace: string): Settings {
    Settings(name, namespace, None, "", None, map[], Resources("", "", "", ""), "", 0, 0, "", 0, [], [], "", "", 0, 0)
  }

  /** What a caller of an encoder supplies; `absent` tells a nil command list from an empty one. */
  datatype Manifest = Manifest(
    image: string, commands: seq<string>, absent: bool, shell: string, env: map<string, string>, resources: Resources,
    restartPolicy: string, maxRestarts: int, gracePeriod: string, schedule: string,
    replicas: Int32, ports: seq<Port>, volumes: seq<Volume>, serviceName: string,
    healthCheckPath: string, healthCheckPort: Int32)

  predicate Restarting(kind: Kind) { kind.Process? || kind.CronJob? }

  predicate Serving(kind: Kind) { kind.Service? || kind.Persistent? }

  // ---------------------------------------------------------------------------------------
  // Encoding
  // ---------------------------------------------------------------------------------------

  /** Fields with "omitempty". */
  function IfText(s: string): Option<Json> {
    if s == "" then None else Some(Text(s))
  }

  function IfNumber(n: int): Option<Json> {
    if n == 0 then None else Some(Number(n))
  }

  function IfList(items: seq<Json>): Option<Json> {
    if items == [] then None else Some(List(items))
  }

  function EncodeScript(m: Manifest): Json {
    Object(map[AtCommands := if m.absent && m.commands == [] then Null else List(Texts(m.commands)),
               AtShell := Text(m.shell)])
  }

  function Texts(commands: seq<string>): (items: seq<Json>)
    ensures |items| == |commands|
  {
    seq(|commands|, i requires 0 <= i < |commands| => Text(commands[i]))
  }

  function EncodeEnv(env: map<string, string>): Option<Json> {
    if env == map[] then None else Some(Table(map k | k in env :: Text(env[k])))
  }

  function ResourceField(r: Resources, key: Key): Option<Json> {
    match key
    case AtCpuRequest => IfText(r.cpuRequest)
    case AtMemoryRequest => IfText(r.memoryRequest)
    case AtCpuLimit => IfText(r.cpuLimit)
    case AtMemoryLimit => IfText(r.memoryLimit)
    case _ => None
  }

  function EncodeResources(r: Resources): Json {
    Object(map key: Key | ResourceField(r, key).Some? :: ResourceField(r, key).value)
  }

  function EncodePort(p: Port): Json {
    Object(map[AtName := Text(p.name), AtContainerPort := Number(p.containerPort), AtServicePort := Number(p.servicePort)])
  }

  function EncodeVolume(v: Volume): Json {
    var fields := map[AtName := Text(v.name), AtMountPath := Text(v.mountPath), AtSize := Text(v.size)];
    Object(if v.storageClassName == "" then fields else fields[AtStorageClassName := Text(v.storageClassName)])
  }

  function Ports(ports: seq<Port>): seq<Json> {
    seq(|ports|, i requires 0 <= i < |ports| => EncodePort(ports[i]))
  }

  function Volumes(volumes: seq<Volume>): seq<Json> {
    seq(|volumes|, i requires 0 <= i < |volumes| => EncodeVolume(volumes[i]))
  }

  /** The value of one field of the specification, unless it is left out. */
  function SpecField(kind: Kind, m: Manifest, key: Key): Option<Json> {
    match key
    case AtImage => Some(Text(m.image))
    case AtScript => Some(EncodeScript(m))
    case AtEnv => EncodeEnv(m.env)
    case AtResources => Some(EncodeResources(m.resources))  // never left out: a struct is not empty
    case AtRestartPolicy => if Restarting(kind) then IfText(m.restartPolicy) else None
    case AtMaxRestarts => if kind.Process? then IfNumber(m.maxRestarts) else None
    case AtGracePeriod => if kind.Process? then IfText(m.gracePeriod) else None
    case AtSchedule => if kind.CronJob? then Some(Text(m.schedule)) else None
    case AtReplicas => if Serving(kind) then Some(Number(m.replicas)) else None
    case AtPorts => if Serving(kind) then IfList(Ports(m.ports)) else None
    case AtHealthCheckPath => if Serving(kind) then IfText(m.healthCheckPath) else None
    case AtHealthCheckPort => if Serving(kind) then IfNumber(m.healthCheckPort) else None
    case AtServiceName => if kind.Persistent? then IfText(m.serviceName) else None
    case AtPersistentVolumes => if kind.Persistent? then IfList(Volumes(m.volumes)) else None
    case _ => None
  }

  function EncodeSpec(kind: Kind, m: Manifest): Fields {
    map key: Key | SpecField(kind, m, key).Some? :: SpecField(kind, m, key).value
  }

  /** A stored object: its reference, and its fields besides the metadata. */
  datatype Resource = Resource(ref: Ref, fields: Fields)

  function Create(kind: Kind, name: string, namespace: string, m: Manifest): Resource {
    Resource(RefOf(Place(kind, namespace, name)), map[AtSpec := Object(EncodeSpec(kind, m))])
  }

  // ---------------------------------------------------------------------------------------
  // Decoding
  // ---------------------------------------------------------------------------------------

  /** NestedString, NestedInt64, NestedSlice and NestedMap: a field of another type is not found. */
  function TextAt(f: Fields, key: Key): string {
    if key in f && f[key].Text? then f[key].s else ""
  }

  function NumberAt(f: Fields, key: Key): int {
    if key in f && f[key].Number? then f[key].n else 0
  }

  function ListAt(f: Fields, key: Key): seq<Json> {
    if key in f && f[key].List? then f[key].items else []
  }

  function ObjectAt(f: Fields, key: Key): Option<Fields> {
    if key in f && f[key].Object? then Some(f[key].fields) else None
  }

  function TableAt(f: Fields, key: Key): Option<map<string, Json>> {
    if key in f && f[key].Table? then Some(f[key].entries) else None
  }

  /** The strings of a list; anything else in it is passed over. */
  function DecodeTexts(items: seq<Json>): seq<string>
    decreases |items|
  {
    if items == [] then []
    else
      var n := |items| - 1;
      DecodeTexts(items[..n]) + if items[n].Text? then [items[n].s] else []
  }

  function DecodePort(f: Fields): Port {
    Port(TextAt(f, AtName), ToInt32(NumberAt(f, AtContainerPort)), ToInt32(NumberAt(f, AtServicePort)))
  }

  function DecodePorts(items: seq<Json>): seq<Port>
    decreases |items|
  {
    if items == [] then []
    else
      var n := |items| - 1;
      DecodePorts(items[..n]) + if items[n].Object? then [DecodePort(items[n].fields)] else []
  }

  function DecodeVolume(f: Fields): Volume {
    Volume(TextAt(f, AtName), TextAt(f, AtMountPath), TextAt(f, AtStorageClassName), TextAt(f, AtSize))
  }

  function DecodeVolumes(items: seq<Json>): seq<Volume>
    decreases |items|
  {
    if items == [] then []
    else
      var n := |items| - 1;
      DecodeVolumes(items[..n]) + if items[n].Object? then [DecodeVolume(items[n].fields)] else []
  }

  function DecodeScript(f: Fields): Script {
    Script(DecodeTexts(ListAt(f, AtCommands)), TextAt(f, AtShell))
  }

  function DecodeEnv(f: map<string, Json>): map<string, string> {
    map k | k in f && f[k].Text? :: f[k].s
  }

  function DecodeResources(f: Fields): Resources {
    Resources(TextAt(f, AtCpuRequest), TextAt(f, AtMemoryRequest), TextAt(f, AtCpuLimit), TextAt(f, AtMemoryLimit))
  }

  function ScriptAt(f: Fields): Option<Script> {
    match ObjectAt(f, AtScript)
    case None => None
    case Some(s) => Some(DecodeScript(s))
  }

  function EnvAt(f: Fields): map<string, string> {
    match TableAt(f, AtEnv)
    case None => map[]
    case Some(e) => DecodeEnv(e)
  }

  function ResourcesAt(f: Fields): Resources {
    match ObjectAt(f, AtResources)
    case None => Resources("", "", "", "")
    case Some(r) => DecodeResources(r)
  }

  /** time.ParseDuration; a text it does not accept leaves the field at zero. */
  function Duration(parse: string -> Option<int>, text: string): int {
    match parse(text)
    case None => 0
    case Some(d) => d
  }

  function DurationAt(parse: string -> Option<int>, f: Fields, key: Key): int {
    if key in f && f[key].Text? then Duration(parse, f[key].s) else 0
  }

  /** The configuration an object decodes to; an object without a specification has none. */
  function Decode(kind: Kind, parse: string -> Option<int>, obj: Resource, name: string, namespace: string): Option<Settings> {
    match ObjectAt(obj.fields, AtSpec)
    case None => None
    case Some(f) =>
      Some(Settings(
        name, namespace, Some(obj.ref),
        TextAt(f, AtImage), ScriptAt(f), EnvAt(f), ResourcesAt(f),
        if Restarting(kind) then TextAt(f, AtRestartPolicy) else "",
        if kind.Process? then NumberAt(f, AtMaxRestarts) else 0,
        if kind.Process? then DurationAt(parse, f, AtGracePeriod) else 0,
        if kind.CronJob? then TextAt(f, AtSchedule) else "",
        if Serving(kind) then ToInt32(NumberAt(f, AtReplicas)) else 0,
        if Serving(kind) then DecodePorts(ListAt(f, AtPorts)) else [],
        if kind.Persistent? then DecodeVolumes(ListAt(f, AtPersistentVolumes)) else [],
        if kind.Persistent? then TextAt(f, AtServiceName) else "",
        if Serving(kind) then TextAt(f, AtHealthCheckPath) else "",
        if Serving(kind) then ToInt32(NumberAt(f, AtHealthCheckPort)) else 0,
        if Serving(kind) then DurationAt(parse, f, AtReadinessTimeout) else 0))
  }

  method ConvertScript(f: Fields) returns (script: Script)
    ensures script == DecodeScript(f)
  {
    script := Script([], "");
    var commandsUntyped := ListAt(f, AtCommands);
    var i := 0;
    while i < |commandsUntyped|
      invariant 0 <= i <= |commandsUntyped|
      invariant script == Script(DecodeTexts(commandsUntyped[..i]), "")
    {
      assert commandsUntyped[..i + 1][..i] == commandsUntyped[..i];
      if commandsUntyped[i].Text? {
        script := script.(commands := script.commands + [commandsUntyped[i].s]);
      }
      i := i + 1;
    }
    assert commandsUntyped[..i] == commandsUntyped;
    script := script.(shell := TextAt(f, AtShell));
  }

  method ConvertEnv(f: map<string, Json>) returns (env: map<string, string>)
    ensures env == DecodeEnv(f)
  {
    env := map[];
    var left := f.Keys;
    while left != {}
      invariant left <= f.Keys
      invariant env == map k | k in f && k !in left && f[k].Text? :: f[k].s
      decreases |left|
    {
      var k :| k in left;
      left := left - {k};
      if f[k].Text? {
        env := env[k := f[k].s];
      }
    }
  }

  method ConvertPorts(items: seq<Json>) returns (ports: seq<Port>)
    ensures ports == DecodePorts(items)
  {
    ports := [];
    var i := 0;
    while i < |items|
      invariant 0 <= i <= |items| && ports == DecodePorts(items[..i])
    {
      assert items[..i + 1][..i] == items[..i];
      if items[i].Object? {
        var portMap := items[i].fields;
        var port := Port("", 0, 0);
        port := port.(name := TextAt(portMap, AtName));
        port := port.(containerPort := ToInt32(NumberAt(portMap, AtContainerPort)));
        port := port.(servicePort := ToInt32(NumberAt(portMap, AtServicePort)));
        ports := ports + [port];
      }
      i := i + 1;
    }
    assert items[..i] == items;
  }

  method ConvertVolumes(items: seq<Json>) returns (volumes: seq<Volume>)
    ensures volumes == DecodeVolumes(items)
  {
    volumes := [];
    var i := 0;
    while i < |items|
      invariant 0 <= i <= |items| && volumes == DecodeVolumes(items[..i])
    {
      assert items[..i + 1][..i] == items[..i];
      if items[i].Object? {
        var volumeMap := items[i].fields;
        var volume := Volume("", "", "", "");
        volume := volume.(name := TextAt(volumeMap, AtName), mountPath := TextAt(volumeMap, AtMountPath));
        volume := volume.(storageClassName := TextAt(volumeMap, AtStorageClassName), size := TextAt(volumeMap, AtSize));
        volumes := volumes + [volume];
      }
      i := i + 1;
    }
    assert items[..i] == items;
  }

  predicate Identified(obj: Resource, name: string, namespace: string, c: Settings) {
    c.name == name && c.namespace == namespace && c.ref == Some(obj.ref)
  }

  predicate Lasts(parse: string -> Option<int>, f: Fields, key: Key, d: int) {
    key in f && f[key].Text? && parse(f[key].s) == Some(d)
  }

  /** A duration is what its text means, and zero if it is missing, no text, or unreadable. */
  ghost predicate Timed(kind: Kind, parse: string -> Option<int>, f: Fields, c: Settings) {
    && (forall d :: Serving(kind) && Lasts(parse, f, AtReadinessTimeout, d) ==> c.readinessTimeout == d)
    && (c.readinessTimeout != 0 ==> Serving(kind) && Lasts(parse, f, AtReadinessTimeout, c.readinessTimeout))
    && (forall d :: kind.Process? && Lasts(parse, f, AtGracePeriod, d) ==> c.gracePeriod == d)
    && (c.gracePeriod != 0 ==> kind.Process? && Lasts(parse, f, AtGracePeriod, c.gracePeriod))
  }

  /** Of the parts every kind has, what is missing or of another type is left empty. */
  ghost predicate Furnished(f: Fields, c: Settings) {
    && c.image == (if AtImage in f && f[AtImage].Text? then f[AtImage].s else "")
    && (c.script.Some? <==> AtScript in f && f[AtScript].Object?)
    && (c.resources != Resources("", "", "", "") ==> AtResources in f && f[AtResources].Object?)
    && (forall k :: k in c.env <==> AtEnv in f && f[AtEnv].Table? && k in f[AtEnv].entries && f[AtEnv].entries[k].Text?)
    && (forall k :: k in c.env ==> f[AtEnv].entries[k] == Text(c.env[k]))
  }

  /** What the four decoders make of any stored object, whoever wrote it. */
  lemma DecodesStored(kind: Kind, parse: string -> Option<int>, obj: Resource, name: string, namespace: string)
    requires AtSpec in obj.fields && obj.fields[AtSpec].Object?
    ensures var d := Decode(kind, parse, obj, name, namespace);
            && d.Some? && Identified(obj, name, namespace, d.value)
            && Timed(kind, parse, obj.fields[AtSpec].fields, d.value) && Furnished(obj.fields[AtSpec].fields, d.value)
  {
  }

  /** Items of another type anywhere in a list do not count. */
  lemma {:induction false} ForeignItemsArePassedOver(before: seq<Json>, item: Json, after: seq<Json>)
    ensures !item.Text? ==> DecodeTexts(before + [item] + after) == DecodeTexts(before + after)
    ensures !item.Object? ==> DecodePorts(before + [item] + after) == DecodePorts(before + after)
    ensures !item.Object? ==> DecodeVolumes(before + [item] + after) == DecodeVolumes(before + after)
    decreases |after|
  {
    var with, without := before + [item] + after, before + after;
    if after == [] {
      assert with[..|with| - 1] == without;
    } else {
      var n := |after| - 1;
      ForeignItemsArePassedOver(before, item, after[..n]);
      assert with[..|with| - 1] == before + [item] + after[..n];
      assert without[..|without| - 1] == before + after[..n];
    }
  }

  /** convertToProcessConfig, convertToServiceConfig, convertToCronJobConfig, convertToPersistentConfig */
  method Convert(kind: Kind, parse: string -> Option<int>, obj: Resource, name: string, namespace: string)
    returns (result: Option<Settings>)
    ensures result == Decode(kind, parse, obj, name, namespace)
    ensures result.Some? <==> AtSpec in obj.fields && obj.fields[AtSpec].Object?
  {
    var spec := ObjectAt(obj.fields, AtSpec);
    if spec.None? {
      return None;
    }
    var f := spec.value;
    var config := Zero(name, namespace);
    config := config.(image := TextAt(f, AtImage));
    var scriptMap := ObjectAt(f, AtScript);
    if scriptMap.Some? {
      var script := ConvertScript(scriptMap.value);
      config := config.(script := Some(script));
    }
    var envMap := TableAt(f, AtEnv);
    if envMap.Some? {
      var env := ConvertEnv(envMap.value);
      config := config.(env := env);
    }
    if ObjectAt(f, AtResources).Some? {
      config := config.(resources := DecodeResources(ObjectAt(f, AtResources).value));
    }
    if Restarting(kind) {
      config := config.(restartPolicy := TextAt(f, AtRestartPolicy));
    }
    if kind == Process {
      config := config.(maxRestarts := NumberAt(f, AtMaxRestarts), gracePeriod := DurationAt(parse, f, AtGracePeriod));
    }
    if kind == CronJob {
      config := config.(schedule := TextAt(f, AtSchedule));
    }
    if Serving(kind) {
      var ports := ConvertPorts(ListAt(f, AtPorts));
      config := config.(replicas := ToInt32(NumberAt(f, AtReplicas)), ports := ports);
      config := config.(healthCheckPath := TextAt(f, AtHealthCheckPath),
                        healthCheckPort := ToInt32(NumberAt(f, AtHealthCheckPort)),
                        readinessTimeout := DurationAt(parse, f, AtReadinessTimeout));
    }
    if kind == Persistent {
      var volumes := ConvertVolumes(ListAt(f, AtPersistentVolumes));
      config := config.(volumes := volumes, serviceName := TextAt(f, AtServiceName));
    }
    return Some(config.(ref := Some(obj.ref)));
  }

  // ---------------------------------------------------------------------------------------
  // Round trip
  // ---------------------------------------------------------------------------------------

  /** What should come back: everything supplied to the encoder of that kind, and nothing else. */
  function Supplied(kind: Kind, parse: string -> Option<int>, name: string, namespace: string, m: Manifest): Settings {
    var base := Zero(name, namespace).(
      ref := Some(RefOf(Place(kind, namespace, name))), image := m.image, script := Some(Script(m.commands, m.shell)),
      env := m.env, resources := m.resources);
    match kind
    case Process =>
      base.(restartPolicy := m.restartPolicy, maxRestarts := m.maxRestarts,
            gracePeriod := if m.gracePeriod == "" then 0 else Duration(parse, m.gracePeriod))
    case CronJob => base.(schedule := m.schedule, restartPolicy := m.restartPolicy)
    case Service =>
      base.(replicas := m.replicas, ports := m.ports, healthCheckPath := m.healthCheckPath,
            healthCheckPort := m.healthCheckPort)
    case Persistent =>
      base.(replicas := m.replicas, ports := m.ports, healthCheckPath := m.healthCheckPath,
            healthCheckPort := m.healthCheckPort, serviceName := m.serviceName, volumes := m.volumes)
  }

  lemma {:induction false} TextsReturn(commands: seq<string>)
    ensures DecodeTexts(Texts(commands)) == commands
    decreases |commands|
  {
    if commands != [] {
      var n := |commands| - 1;
      TextsReturn(commands[..n]);
      assert Texts(commands)[..n] == Texts(commands[..n]);
      assert commands == commands[..n] + [commands[n]];
    }
  }

  lemma PortReturns(p: Port)
    ensures EncodePort(p).Object? && DecodePort(EncodePort(p).fields) == p
  {
  }

  lemma {:induction false} PortsReturn(ports: seq<Port>)
    ensures DecodePorts(Ports(ports)) == ports
    decreases |ports|
  {
    if ports != [] {
      var n := |ports| - 1;
      PortsReturn(ports[..n]);
      PortReturns(ports[n]);
      assert Ports(ports)[..n] == Ports(ports[..n]);
      assert ports == ports[..n] + [ports[n]];
    }
  }

  lemma VolumeReturns(v: Volume)
    ensures EncodeVolume(v).Object? && DecodeVolume(EncodeVolume(v).fields) == v
  {
  }

  lemma {:induction false} VolumesReturn(volumes: seq<Volume>)
    ensures DecodeVolumes(Volumes(volumes)) == volumes
    decreases |volumes|
  {
    if volumes != [] {
      var n := |volumes| - 1;
      VolumesReturn(volumes[..n]);
      VolumeReturns(volumes[n]);
      assert Volumes(volumes)[..n] == Volumes(volumes[..n]);
      assert volumes == volumes[..n] + [volumes[n]];
    }
  }

  lemma ResourcesReturn(r: Resources)
    ensures EncodeResources(r).Object? && DecodeResources(EncodeResources(r).fields) == r
  {
  }

  lemma ScriptReturns(m: Manifest)
    ensures EncodeScript(m).Object? && DecodeScript(EncodeScript(m).fields) == Script(m.commands, m.shell)
  {
    TextsReturn(m.commands);
  }

  lemma EnvReturns(kind: Kind, m: Manifest)
    ensures EnvAt(EncodeSpec(kind, m)) == m.env
  {
  }

  lemma CommonReturns(kind: Kind, m: Manifest)
    ensures var f := EncodeSpec(kind, m);
            && TextAt(f, AtImage) == m.image
            && ScriptAt(f) == Some(Script(m.commands, m.shell))
            && ResourcesAt(f) == m.resources
  {
    ScriptReturns(m);
    ResourcesReturn(m.resources);
  }

  lemma ListsAreThere(kind: Kind, m: Manifest)
    requires Serving(kind)
    ensures ListAt(EncodeSpec(kind, m), AtPorts) == Ports(m.ports)
    ensures kind.Persistent? ==> ListAt(EncodeSpec(kind, m), AtPersistentVolumes) == Volumes(m.volumes)
  {
  }

  lemma ListsReturn(kind: Kind, m: Manifest)
    requires Serving(kind)
    ensures DecodePorts(ListAt(EncodeSpec(kind, m), AtPorts)) == m.ports
    ensures kind.Persistent? ==> DecodeVolumes(ListAt(EncodeSpec(kind, m), AtPersistentVolumes)) == m.volumes
  {
    ListsAreThere(kind, m);
    PortsReturn(m.ports);
    VolumesReturn(m.volumes);
  }

  lemma RestartFieldsReturn(kind: Kind, parse: string -> Option<int>, m: Manifest)
    requires Restarting(kind)
    ensures var f := EncodeSpec(kind, m);
            && TextAt(f, AtRestartPolicy) == m.restartPolicy
            && (kind.CronJob? ==> TextAt(f, AtSchedule) == m.schedule)
            && (kind.Process? ==>
                  && NumberAt(f, AtMaxRestarts) == m.maxRestarts
                  && DurationAt(parse, f, AtGracePeriod) == if m.gracePeriod == "" then 0 else Duration(parse, m.gracePeriod))
  {
  }

  lemma ServiceFieldsReturn(kind: Kind, parse: string -> Option<int>, m: Manifest)
    requires Serving(kind)
    ensures var f := EncodeSpec(kind, m);
            && ToInt32(NumberAt(f, AtReplicas)) == m.replicas
            && TextAt(f, AtHealthCheckPath) == m.healthCheckPath
            && ToInt32(NumberAt(f, AtHealthCheckPort)) == m.healthCheckPort
            && DurationAt(parse, f, AtReadinessTimeout) == 0
            && (kind.Persistent? ==> TextAt(f, AtServiceName) == m.serviceName)
  {
  }

  /** Encoding and decoding gives back every supplied field of all four kinds, lists in order. */
  lemma RoundTrip(kind: Kind, parse: string -> Option<int>, name: string, namespace: string, m: Manifest)
    ensures Decode(kind, parse, Create(kind, name, namespace, m), name, namespace)
            == Some(Supplied(kind, parse, name, namespace, m))
  {
    EnvReturns(kind, m);
    CommonReturns(kind, m);
    if Serving(kind) {
      ServiceFieldsReturn(kind, parse, m);
      ListsReturn(kind, m);
    } else {
      RestartFieldsReturn(kind, parse, m);
    }
  }

  /** Through the store: a reference without a namespace finds what was created in "default". */
  function LoadSettings(store: map<Place, Resource>, parse: string -> Option<int>, ref: Ref): Option<Settings> {
    match PlaceOf(ref)
    case None => None
    case Some(p) => if p in store then Decode(p.kind, parse, store[p], ref.name, p.namespace) else None
  }

  lemma CreatedIsLoaded(store: map<Place, Resource>, parse: string -> Option<int>, kind: Kind, name: string,
                        namespace: string, m: Manifest, ref: Ref)
    requires namespace != "" && ref.kind == Spelling(kind) && ref.name == name
    ensures var after := store[Place(kind, namespace, name) := Create(kind, name, namespace, m)];
            LoadSettings(after, parse, ref)
            == if Settled(ref.namespace) == namespace then Some(Supplied(kind, parse, name, namespace, m))
               else LoadSettings(store, parse, ref)
  {
    RoundTrip(kind, parse, name, namespace, m);
  }
}
