/** Package and entry-point records (the interfaces directory of libs/ngx-doc-gen/src). */
module NgInterfaces {
  import opened Wrappers

  datatype PackageJson = PackageJson(name: string, version: Option<string>)

  datatype NgEntrypoint = NgEntrypoint(basePath: string, entrypointName: string, packageJson: PackageJson)

  datatype NgPackage = NgPackage(basePath: string, version: Option<string>, packageName: string,
                                 primary: NgEntrypoint, secondaries: seq<NgEntrypoint>)
}

/** Entry-point list assembly (libs/ngx-doc-gen/src/utils/package-utils.ts). */
module PackageUtils {
  import opened NgInterfaces

  /** The primary entry point, then the secondary ones in their order. */
  function CollectEntrypoints(ngPackage: NgPackage): (r: seq<NgEntrypoint>)
    ensures |r| == 1 + |ngPackage.secondaries|
    ensures r[0] == ngPackage.primary
    ensures forall i :: 0 <= i < |ngPackage.secondaries| ==> r[i + 1] == ngPackage.secondaries[i]
  {
    [ngPackage.primary] + ngPackage.secondaries
  }
}
