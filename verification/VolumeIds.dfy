/** Volume IDs of the form namespace/claim, split at the last slash. */
module VolumeIds {
  import opened Wrappers

  datatype Volume = Volume(namespace: string, name: string)

  /** The position of the last slash, or -1. */
  function LastSlash(s: string): (i: int)
    ensures -1 <= i < |s|
    ensures i >= 0 ==> s[i] == '/'
    ensures forall k :: i < k < |s| ==> s[k] != '/'
  {
    if s == [] then -1
    else if s[|s| - 1] == '/' then |s| - 1
    else LastSlash(s[..|s| - 1])
  }

  /** None stands for the error return. */
  function Parse(id: string): Option<Volume> {
    if id == "" then None
    else
      var i := LastSlash(id);
      if i < 0 then Some(Volume("default", id))
      else if i == 0 || i == |id| - 1 then None
      else Some(Volume(id[..i], id[i + 1..]))
  }

  method ParseVolumeId(id: string) returns (v: Option<Volume>)
    ensures v == Parse(id)
  {
    if |id| == 0 {
      return None;
    }
    var i := |id| - 1;
    while i >= 0
      invariant -1 <= i < |id|
      invariant forall k :: i < k < |id| ==> id[k] != '/'
    {
      if id[i] == '/' {
        break;
      }
      i := i - 1;
    }
    if i < 0 {
      return Some(Volume("default", id));
    }
    assert i == LastSlash(id);
    var namespace, name := id[..i], id[i + 1..];
    if namespace == "" || name == "" {
      return None;
    }
    return Some(Volume(namespace, name));
  }

  lemma ParsesItsOwnFormat(namespace: string, name: string)
    requires namespace != "" && name != "" && '/' !in name
    ensures Parse(namespace + "/" + name) == Some(Volume(namespace, name))
  {
    var id := namespace + "/" + name;
    assert id[|namespace|] == '/' && id[|namespace| + 1..] == name;
    assert forall k :: |namespace| < k < |id| ==> id[k] == name[k - |namespace| - 1];
    assert LastSlash(id) == |namespace|;
    assert id[..|namespace|] == namespace;
  }

  lemma RebuiltFromItsParts(id: string)
    requires Parse(id).Some?
    ensures var v := Parse(id).value;
      && v.namespace != "" && v.name != "" && '/' !in v.name
      && ('/' in id ==> id == v.namespace + "/" + v.name)
      && ('/' !in id ==> v == Volume("default", id))
  {
    var i := LastSlash(id);
    if '/' in id {
      assert id == id[..i] + [id[i]] + id[i + 1..];
    }
  }

  lemma DefaultSpelledOut(name: string)
    requires name != "" && '/' !in name
    ensures Parse("default/" + name) == Parse(name) == Some(Volume("default", name))
    ensures '/' in "default/" + name
  {
    ParsesItsOwnFormat("default", name);
    assert "default/" + name == "default" + "/" + name;
    assert ("default/" + name)[7] == '/';
    RebuiltFromItsParts(name) by {
      assert LastSlash(name) == -1;
    }
  }

  /** Two accepted IDs name one claim when they are equal, or when one is the
      bare name and the other spells the default namespace out; never else. */
  lemma SameClaim(a: string, b: string)
    requires Parse(a).Some? && Parse(b).Some?
    ensures Parse(a) == Parse(b)
       <==> a == b || ('/' !in a && b == "default/" + a) || ('/' !in b && a == "default/" + b)
  {
    RebuiltFromItsParts(a);
    RebuiltFromItsParts(b);
    if '/' !in a {
      DefaultSpelledOut(a);
    }
    if '/' !in b {
      DefaultSpelledOut(b);
    }
    assert forall n: string :: "default" + "/" + n == "default/" + n;
  }
}
