/**
 * The JSON adapters of the Kotlin DSL model: `adaptProjectId` replaces the project object found at a path by
 * a top-level "projectId" holding its integer id, and `adaptSignature` replaces a "signature" object by a
 * "creation" object holding its time and user name as texts. Both rewrite the receiving object node in
 * place.
 */
module ProjectEntityJson {
  import opened Wrappers
  import opened Text

  /** A JSON value (Jackson's value nodes), nested objects being held by value. */
  datatype Json =
    | JNull
    | JBool(b: bool)
    | JNumber(n: int)          // an integral number
    | JDecimal(repr: string)   // a number with a fraction or an exponent, by its text
    | JText(s: string)
    | JArray(items: seq<Json>)
    | JObject(fields: map<string, Json>)

  /** Jackson's `isInt`: an integral number that the parser holds in an `IntNode`, that is a 32-bit one. */
  predicate IsInt(j: Json) {
    j.JNumber? && -0x8000_0000 <= j.n < 0x8000_0000
  }

  /** `NoProjectIdException`. */
  datatype NoProjectIdException = NoProjectIdException(message: string)

  const NoProjectIdMessage: string := "No project.id found in JSON node"

  /** An `ObjectNode`: the mutable receiver of the adapters. */
  class ObjectNode {
    var fields: map<string, Json>

    constructor (fields: map<string, Json>)
      ensures this.fields == fields
    {
      this.fields := fields;
    }

    /** `remove(name)`. */
    method Remove(name: string)
      modifies this
      ensures fields == old(fields) - {name}
    {
      fields := fields - {name};
    }

    /** `set(name, value)`. */
    method Set(name: string, value: Json)
      modifies this
      ensures fields == old(fields)[name := value]
    {
      fields := fields[name := value];
    }

    /** `removeDeepPath(path)`. */
    method RemoveDeepPath(path: seq<string>)
      requires |path| > 0
      modifies this
      ensures fields == RemovedAt(old(fields), path)
    {
      fields := RemovedAt(fields, path);
    }
  }

  /**
   * `path(name)` on a node: the field of an object, the missing node (`None`) for any other node or a field
   * that is absent.
   */
  function Path(node: Option<Json>, name: string): (r: Option<Json>)
    ensures r.Some? <==> node.Some? && node.value.JObject? && name in node.value.fields
    ensures r.Some? ==> r.value == node.value.fields[name]
  {
    if node.Some? && node.value.JObject? && name in node.value.fields then Some(node.value.fields[name]) else None
  }

  /** Following the names of a path from a node, `None` standing for the missing node. */
  function Descend(node: Option<Json>, path: seq<string>): Option<Json>
    decreases |path|
  {
    if path == [] then node else Descend(Path(node, path[0]), path[1..])
  }

  /** `deepPath(path)` on an object node: the node reached by following the names of a dotted path. */
  function DeepPath(fields: map<string, Json>, path: seq<string>): (r: Option<Json>)
    requires |path| > 0
    ensures |path| == 1 ==> (r.Some? <==> path[0] in fields) && (r.Some? ==> r.value == fields[path[0]])
  {
    Descend(Path(Some(JObject(fields)), path[0]), path[1..])
  }

  /** `removeDeepPath(path)`: the last name of the path removed from the object its prefix leads to. */
  function RemovedAt(fields: map<string, Json>, path: seq<string>): (r: map<string, Json>)
    requires |path| > 0
    ensures r.Keys <= fields.Keys
    ensures forall k :: k in fields && k != path[0] ==> k in r && r[k] == fields[k]
    decreases |path|
  {
    if |path| == 1 then fields - {path[0]}
    else if path[0] in fields && fields[path[0]].JObject? then
      fields[path[0] := JObject(RemovedAt(fields[path[0]].fields, path[1..]))]
    else fields
  }

  /** Nothing is left at a path once it is removed. */
  lemma {:induction false} RemovedPathIsMissing(fields: map<string, Json>, path: seq<string>)
    requires |path| > 0
    ensures DeepPath(RemovedAt(fields, path), path) == None
    decreases |path|
  {
    if |path| > 1 {
      var r := RemovedAt(fields, path);
      if path[0] in fields && fields[path[0]].JObject? {
        var inner := fields[path[0]].fields;
        RemovedPathIsMissing(inner, path[1..]);
        assert path[1..][1..] == path[2..];
      } else {
        assert Path(Some(JObject(r)), path[0]).Some? ==> !r[path[0]].JObject?;
        DescendFromMissing(path[2..]);
        DescendFromNonObject(Path(Some(JObject(r)), path[0]), path[1..]);
      }
    }
  }

  lemma {:induction false} DescendFromMissing(path: seq<string>)
    ensures Descend(None, path) == None
    decreases |path|
  {
    if path != [] {
      DescendFromMissing(path[1..]);
    }
  }

  lemma DescendFromNonObject(node: Option<Json>, path: seq<string>)
    requires |path| > 0 && (node.None? || !node.value.JObject?)
    ensures Descend(node, path) == None
  {
    DescendFromMissing(path[1..]);
  }

  /**
   * The project id `adaptProjectId` reads: the 32-bit integer "id" of the node at the path, when that node
   * is neither missing nor null and its "id" is present, not null and an `IntNode`; `None` otherwise.
   */
  function ProjectIdAt(fields: map<string, Json>, path: seq<string>): (r: Option<int>)
    requires |path| > 0
    ensures r.Some? <==>
      var p := DeepPath(fields, path);
      p.Some? && p.value.JObject? && "id" in p.value.fields && IsInt(p.value.fields["id"])
    ensures r.Some? ==> -0x8000_0000 <= r.value < 0x8000_0000
    ensures r.Some? ==> Path(DeepPath(fields, path), "id") == Some(JNumber(r.value))
  {
    var projectNode := DeepPath(fields, path);
    if projectNode.None? || projectNode.value.JNull? then None
    else
      var projectId := Path(projectNode, "id");
      if projectId.None? || projectId.value.JNull? || !IsInt(projectId.value) then None
      else Some(projectId.value.n)
  }

  /**
   * `adaptProjectId(projectPath)`: a receiver that is not an object node (`null`) comes back as it is; an
   * object node without a project id at the path raises `NoProjectIdException` and is left as it was;
   * otherwise the path is removed, "projectId" is set to the id, and the same node is returned.
   */
  method AdaptProjectId(node: ObjectNode?, projectPath: seq<string>) returns (r: Result<ObjectNode?, NoProjectIdException>)
    requires |projectPath| > 0
    modifies node
    ensures node == null ==> r == Ok(null)
    ensures node != null ==> (r.Err? <==> ProjectIdAt(old(node.fields), projectPath).None?)
    ensures r.Err? ==> r.error == NoProjectIdException(NoProjectIdMessage) && unchanged(node)
    ensures r.Ok? ==> r.value == node
    ensures r.Ok? && node != null ==>
      node.fields == ProjectIdAdapted(old(node.fields), projectPath, ProjectIdAt(old(node.fields), projectPath).value)
  {
    if node == null {
      return Ok(node);
    }
    var projectNode := DeepPath(node.fields, projectPath);
    if projectNode.None? || projectNode.value.JNull? {
      return Err(NoProjectIdException(NoProjectIdMessage));
    }
    var projectId := Path(projectNode, "id");
    if projectId.None? || projectId.value.JNull? || !IsInt(projectId.value) {
      return Err(NoProjectIdException(NoProjectIdMessage));
    }
    var id := projectId.value.n;
    node.RemoveDeepPath(projectPath);
    node.Set("projectId", JNumber(id));
    return Ok(node);
  }

  /** The fields after a successful `adaptProjectId`. */
  function ProjectIdAdapted(fields: map<string, Json>, path: seq<string>, id: int): map<string, Json>
    requires |path| > 0
  {
    RemovedAt(fields, path)["projectId" := JNumber(id)]
  }

  /**
   * After `adaptProjectId`, "projectId" holds the id and a project path other than "projectId" is gone, so
   * that adapting the node a second time raises `NoProjectIdException`; the other top-level fields are
   * untouched.
   */
  lemma ProjectIdAdaptedOnce(fields: map<string, Json>, path: seq<string>)
    requires |path| > 0 && ProjectIdAt(fields, path).Some? && path[0] != "projectId"
    ensures var a := ProjectIdAdapted(fields, path, ProjectIdAt(fields, path).value);
      && a["projectId"] == JNumber(ProjectIdAt(fields, path).value)
      && DeepPath(a, path) == None
      && ProjectIdAt(a, path) == None
      && (forall k :: k in fields && k != path[0] && k != "projectId" ==> k in a && a[k] == fields[k])
  {
    var a := ProjectIdAdapted(fields, path, ProjectIdAt(fields, path).value);
    var removed := RemovedAt(fields, path);
    RemovedPathIsMissing(fields, path);
    assert Path(Some(JObject(a)), path[0]) == Path(Some(JObject(removed)), path[0]);
    assert DeepPath(a, path) == DeepPath(removed, path);
  }

  /** `asText()` of a node, the missing node (`None`) giving the empty text. */
  function AsText(node: Option<Json>): (r: string)
    ensures node.None? ==> r == ""
    ensures node.Some? && node.value.JText? ==> r == node.value.s
  {
    match node
    case None => ""
    case Some(JNull) => "null"
    case Some(JBool(b)) => if b then "true" else "false"
    case Some(JNumber(n)) => IntToString(n)
    case Some(JDecimal(repr)) => repr
    case Some(JText(s)) => s
    case Some(JArray(_)) => ""
    case Some(JObject(_)) => ""
  }

  /** The "creation" object made from a signature node: its time, and the name of its user, as texts. */
  function Creation(signature: Json): (r: Json)
    ensures r.JObject? && r.fields.Keys == {"time", "user"}
    ensures r.fields["time"] == JText(AsText(Path(Some(signature), "time")))
    ensures r.fields["user"] == JText(AsText(Path(Path(Some(signature), "user"), "name")))
  {
    JObject(map["time" := JText(AsText(Path(Some(signature), "time"))),
                "user" := JText(AsText(Path(Path(Some(signature), "user"), "name")))])
  }

  /**
   * `adaptSignature()`: a receiver that is not an object node, or an object node whose "signature" is
   * absent or null, is left as it is; otherwise "signature" is removed and "creation" is set from it. The
   * same node is returned.
   */
  method AdaptSignature(node: ObjectNode?) returns (r: ObjectNode?)
    modifies node
    ensures r == node
    ensures node != null && "signature" in old(node.fields) && !old(node.fields)["signature"].JNull? ==>
      node.fields == (old(node.fields) - {"signature"})["creation" := Creation(old(node.fields)["signature"])]
    ensures node != null && ("signature" !in old(node.fields) || old(node.fields)["signature"].JNull?) ==>
      unchanged(node)
    ensures node != null ==> node.fields == SignatureAdapted(old(node.fields))
  {
    if node == null {
      return node;
    }
    if "signature" !in node.fields {
      return node;
    }
    var signatureNode := node.fields["signature"];
    if signatureNode.JNull? {
      return node;
    }
    node.Remove("signature");
    node.Set("creation", Creation(signatureNode));
    return node;
  }

  /** The fields after `adaptSignature`. */
  function SignatureAdapted(fields: map<string, Json>): map<string, Json> {
    if "signature" in fields && !fields["signature"].JNull? then
      (fields - {"signature"})["creation" := Creation(fields["signature"])]
    else fields
  }

  /**
   * `adaptSignature` is idempotent: once adapted, a node has no "signature" left. A signature with a text
   * time and a user with a text name gives exactly those two texts.
   */
  lemma SignatureAdaptedOnce(fields: map<string, Json>, time: string, name: string)
    ensures SignatureAdapted(SignatureAdapted(fields)) == SignatureAdapted(fields)
    ensures "signature" !in SignatureAdapted(fields) || SignatureAdapted(fields)["signature"] == JNull
    ensures var signature := JObject(map["time" := JText(time), "user" := JObject(map["name" := JText(name)])]);
      SignatureAdapted(fields["signature" := signature])["creation"]
        == JObject(map["time" := JText(time), "user" := JText(name)])
  {
    var signature := JObject(map["time" := JText(time), "user" := JObject(map["name" := JText(name)])]);
    assert Path(Some(signature), "time") == Some(JText(time));
    assert Path(Path(Some(signature), "user"), "name") == Some(JText(name));
  }
}
