/** The precompiled driver image (api/v1alpha1/rblndriver_types.go). */
module DriverImage {
  import opened Wrappers
  import opened Labels
  import opened Text

  datatype DriverSpec = DriverSpec(registry: string, image: string, version: string, nodeSelector: LabelMap)

  /** GetPrecompiledImagePath. */
  function ImagePath(spec: DriverSpec, os: string, kernel: string): Result<string> {
    if os == "" || kernel == "" then Err("osVersion and kernelVersion are required")
    else
      var r := TrimSpace(spec.registry);
      var registry := if r != "" && r[|r| - 1] == '/' then r[..|r| - 1] else r;
      var i := TrimSpace(spec.image);
      var image := if i != "" && i[0] == '/' then i[1..] else i;
      var version := TrimSpace(spec.version);
      if version == "" then Err("driver version is required")
      else if Contains(image, "@sha256:") || Contains(version, "sha256:") then
        Err("specifying image digest is not supported when precompiled is enabled")
      else Ok(registry + "/" + image + ":" + version + "-" + kernel + "-" + os)
  }

  /** The registry, as the user spelled it: spaces around, a slash at the end. */
  ghost predicate RegistryOf(s: string, registry: string) {
    || Padded(s, registry + "/")
    || (Padded(s, registry) && (registry != "" ==> registry[|registry| - 1] != '/'))
  }

  ghost predicate ImageOf(s: string, image: string) {
    || Padded(s, "/" + image)
    || (Padded(s, image) && (image != "" ==> image[0] != '/'))
  }

  /** A digest, which has no room for a kernel. */
  ghost predicate HasDigest(image: string, version: string) {
    (exists a, b :: image == a + "@sha256:" + b) || exists a, b :: version == a + "sha256:" + b
  }

  lemma RegistryIff(s: string, registry: string)
    ensures RegistryOf(s, registry) <==>
            registry == var r := TrimSpace(s); if r != "" && r[|r| - 1] == '/' then r[..|r| - 1] else r
  {
    TrimIff(s, registry + "/");
    TrimIff(s, registry);
    var r := TrimSpace(s);
    if r != "" && r[|r| - 1] == '/' {
      assert r == r[..|r| - 1] + "/";
    }
    assert (registry + "/")[..|registry|] == registry;
  }

  lemma ImageIff(s: string, image: string)
    ensures ImageOf(s, image) <==>
            image == var i := TrimSpace(s); if i != "" && i[0] == '/' then i[1..] else i
  {
    TrimIff(s, "/" + image);
    TrimIff(s, image);
    var i := TrimSpace(s);
    if i != "" && i[0] == '/' {
      assert i == "/" + i[1..];
    }
    assert ("/" + image)[1..] == image;
  }

  /** What GetPrecompiledImagePath computes, and when it fails. */
  lemma ImagePathMeaning(spec: DriverSpec, registry: string, image: string, version: string, os: string, kernel: string)
    requires RegistryOf(spec.registry, registry) && ImageOf(spec.image, image) && Padded(spec.version, version)
    ensures ImagePath(spec, os, kernel).Ok? <==>
            os != "" && kernel != "" && version != "" && !HasDigest(image, version)
    ensures ImagePath(spec, os, kernel).Ok? ==>
            ImagePath(spec, os, kernel).value == registry + "/" + image + ":" + version + "-" + kernel + "-" + os
  {
    RegistryIff(spec.registry, registry);
    ImageIff(spec.image, image);
    TrimIff(spec.version, version);
    ContainsIff(image, "@sha256:");
    ContainsIff(version, "sha256:");
  }

  /** Every spec has these parts. */
  lemma PartsOf(spec: DriverSpec) returns (registry: string, image: string, version: string)
    ensures RegistryOf(spec.registry, registry) && ImageOf(spec.image, image) && Padded(spec.version, version)
  {
    var r, i := TrimSpace(spec.registry), TrimSpace(spec.image);
    registry := if r != "" && r[|r| - 1] == '/' then r[..|r| - 1] else r;
    image := if i != "" && i[0] == '/' then i[1..] else i;
    version := TrimSpace(spec.version);
    RegistryIff(spec.registry, registry);
    ImageIff(spec.image, image);
    TrimIff(spec.version, version);
  }

  /** The image of a spec tells apart every two pairs of kernel and system that the
      tag can tell apart at all. */
  lemma SameImageIff(spec: DriverSpec, os: string, kernel: string, os': string, kernel': string)
    requires ImagePath(spec, os, kernel).Ok? && ImagePath(spec, os', kernel').Ok?
    ensures ImagePath(spec, os, kernel) == ImagePath(spec, os', kernel') <==> kernel + "-" + os == kernel' + "-" + os'
  {
    var registry, image, version := PartsOf(spec);
    ImagePathMeaning(spec, registry, image, version, os, kernel);
    ImagePathMeaning(spec, registry, image, version, os', kernel');
    var front := registry + "/" + image + ":" + version + "-";
    assert front + kernel + "-" + os == front + (kernel + "-" + os);
    assert front + kernel' + "-" + os' == front + (kernel' + "-" + os');
    SameTail(front, kernel + "-" + os, kernel' + "-" + os');
  }

  lemma SameTail(front: string, a: string, b: string)
    ensures front + a == front + b <==> a == b
  {
    assert (front + a)[|front|..] == a && (front + b)[|front|..] == b;
  }

  lemma SameHead(a: string, b: string, back: string)
    ensures a + back == b + back <==> a == b
  {
    assert (a + back)[..|a|] == a && (b + back)[..|b|] == b;
  }

  /** On one operating system the image fixes the kernel. */
  lemma ImageFixesKernel(spec: DriverSpec, os: string, kernel: string, kernel': string)
    requires ImagePath(spec, os, kernel).Ok? && ImagePath(spec, os, kernel) == ImagePath(spec, os, kernel')
    ensures kernel == kernel'
  {
    SameImageIff(spec, os, kernel, os, kernel');
    assert kernel + "-" + os == kernel + ("-" + os) && kernel' + "-" + os == kernel' + ("-" + os);
    SameHead(kernel, kernel', "-" + os);
  }

  /** And the tag ends with both. */
  lemma TagEndsWith(spec: DriverSpec, os: string, kernel: string) returns (front: string)
    requires ImagePath(spec, os, kernel).Ok?
    ensures ImagePath(spec, os, kernel).value == front + "-" + kernel + "-" + os
  {
    var registry, image, version := PartsOf(spec);
    ImagePathMeaning(spec, registry, image, version, os, kernel);
    front := registry + "/" + image + ":" + version;
  }

  lemma PlainImage(spec: DriverSpec, os: string, kernel: string)
    requires spec.image == "i" && spec.version == "1" && os != "" && kernel != ""
    ensures ImagePath(spec, os, kernel).Ok?
  {
    assert TrimSpace("1") == "1" && TrimSpace("i") == "i";
    assert !Contains("i", "@sha256:") && !Contains("1", "sha256:");
  }
}
