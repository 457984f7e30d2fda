/** `featureServiceLayerQueryJSON`: a layer query in one of three modes.
    A count or an id list from the provider is passed on unchanged; in
    feature mode the provider's features are put into a copy of the
    FeatureSet template and, when Web Mercator output is requested, each
    feature's geometry is reprojected. The provider's asynchronous query
    calls and the result callback are taken as a synchronous call and a
    returned value. */
module QueryResult {
  import opened JsValue
  import opened DataProvider
  import opened Mercator

  /** What the caller receives: the provider's count, its id list, or a
      finished FeatureSet. */
  datatype QueryOutput =
    | CountOutput(count: Json)
    | IdsOutput(ids: Json)
    | FeatureSetOutput(featureSet: Json)

  /** `outSR == 102100` with JavaScript's loose equality, for a number or
      the decimal text of the id. */
  predicate IsWebMercator(outSR: Json) {
    outSR == Num(WebMercatorWkid as real) || outSR == Str("102100")
  }

  /** A feature whose geometry can be read and projected: an object with a
      `geometry` that is neither missing nor null. */
  predicate Projectable(feature: Json) {
    feature.Obj? && "geometry" in feature.props && feature.props["geometry"] != Null
  }

  /** One feature of the Web Mercator branch: its JSON copy with `geometry`
      replaced by the projected point. */
  function ProjectFeature(feature: Json, pr: Projector): (r: Result<Json>)
    ensures r.Err? <==> !Projectable(feature)
    ensures r.Ok? ==> r.value.Obj? && r.value.props.Keys == feature.props.Keys
    ensures r.Ok? ==> forall k :: k in feature.props && k != "geometry" ==> r.value.props[k] == feature.props[k]
    ensures r.Ok? ==> Ok(r.value.props["geometry"]) == ProjectGeometry(Some(feature.props["geometry"]), pr)
  {
    var copy := feature;
    var geometry :- GetProp(copy, "geometry");
    var projected :- ProjectGeometry(geometry, pr);
    SetProp(copy, "geometry", projected)
  }

  predicate AllProjectable(features: seq<Json>) {
    forall i :: 0 <= i < |features| ==> Projectable(features[i])
  }

  /** The projected features, in the provider's order. */
  function ProjectedList(features: seq<Json>, pr: Projector): (r: seq<Json>)
    requires AllProjectable(features)
    ensures |r| == |features|
    ensures forall i :: 0 <= i < |features| ==> Ok(r[i]) == ProjectFeature(features[i], pr)
  {
    seq(|features|, i requires 0 <= i < |features| => ProjectFeature(features[i], pr).value)
  }

  /** `spatialReference.wkid = 102100` applied to the template's spatial
      reference. */
  function TagWebMercator(sr: Json): Json
    requires sr != Null
  {
    SetProp(sr, "wkid", Num(WebMercatorWkid as real)).value
  }

  /** The template has a spatial reference whose `wkid` can be written. */
  predicate HasSpatialReference(template: Json) {
    template.Obj? && "spatialReference" in template.props && template.props["spatialReference"] != Null
  }

  /** Reference definition of the finished FeatureSet: `fields` from the
      provider; `features` the projected copies with the spatial reference
      tagged Web Mercator, or otherwise the provider's list as it is. */
  function FeatureSetSpec(template: Json, fields: Json, features: seq<Json>, outSR: Json, pr: Projector): Result<Json> {
    if IsWebMercator(outSR) then
      if HasSpatialReference(template) && AllProjectable(features) then
        Ok(Obj(template.props + map[
          "fields" := fields,
          "features" := Arr(ProjectedList(features, pr)),
          "spatialReference" := TagWebMercator(template.props["spatialReference"])]))
      else Err(TypeError)
    else if template == Null then Err(TypeError)
    else if template.Obj? then Ok(Obj(template.props + map["fields" := fields, "features" := Arr(features)]))
    else Ok(template)
  }

  /** The loop of the Web Mercator branch: one projected copy per feature,
      pushed in order; a feature without a readable geometry throws. */
  method ProjectFeatures(features: seq<Json>, pr: Projector) returns (r: Result<seq<Json>>)
    ensures r.Ok? <==> AllProjectable(features)
    ensures r.Ok? ==> |r.value| == |features|
    ensures r.Ok? ==> forall i :: 0 <= i < |features| ==> Ok(r.value[i]) == ProjectFeature(features[i], pr)
  {
    var projectedOutput := [];
    var i := 0;
    while i < |features|
      invariant 0 <= i <= |features|
      invariant |projectedOutput| == i
      invariant forall j :: 0 <= j < i ==> Ok(projectedOutput[j]) == ProjectFeature(features[j], pr)
    {
      var feature := ProjectFeature(features[i], pr);
      if feature.Err? {
        return Err(TypeError);
      }
      projectedOutput := projectedOutput + [feature.value];
      i := i + 1;
    }
    r := Ok(projectedOutput);
  }

  /** The feature-mode callback: copy the template, set `fields`, then set
      `features` and, for Web Mercator output, the spatial reference's wkid. */
  method FeatureSetFor(template: Json, fields: Json, queryResult: seq<Json>, outSR: Json, pr: Projector)
    returns (r: Result<Json>)
    ensures r == FeatureSetSpec(template, fields, queryResult, outSR, pr)
  {
    var featureSet := template;
    var withFields := SetProp(featureSet, "fields", fields);
    if withFields.Err? {
      return Err(TypeError);
    }
    featureSet := withFields.value;
    if IsWebMercator(outSR) {
      var projectedOutput := ProjectFeatures(queryResult, pr);
      if projectedOutput.Err? {
        return Err(TypeError);
      }
      featureSet := SetProp(featureSet, "features", Arr(projectedOutput.value)).value;
      var sr := GetProp(featureSet, "spatialReference").value;
      if sr.None? || sr.value == Null {
        return Err(TypeError);
      }
      featureSet := SetProp(featureSet, "spatialReference", TagWebMercator(sr.value)).value;
      assert projectedOutput.value == ProjectedList(queryResult, pr);
      ghost var m := template.props;
      UpdateIsMerge(m, "fields", fields);
      MergeUpdate(m, map["fields" := fields], "features", Arr(projectedOutput.value));
      MergeUpdate(m, map["fields" := fields, "features" := Arr(projectedOutput.value)],
                  "spatialReference", TagWebMercator(sr.value));
    } else {
      featureSet := SetProp(featureSet, "features", Arr(queryResult)).value;
      if template.Obj? {
        UpdateIsMerge(template.props, "fields", fields);
        MergeUpdate(template.props, map["fields" := fields], "features", Arr(queryResult));
      }
    }
    r := Ok(featureSet);
  }

  /** `featureServiceLayerQueryJSON`: `countOnly` is checked first, then
      `idsOnly` (both by JavaScript truthiness); otherwise feature mode. */
  method FeatureServiceLayerQueryJSON(
    p: Provider, featureSetTemplate: Json, serviceId: Json, layerId: Json, query: Json,
    countOnly: Json, idsOnly: Json, outSR: Json, pr: Projector)
    returns (r: Result<QueryOutput>)
    ensures Truthy(countOnly) ==> r == Ok(CountOutput(p.countForQuery(serviceId, layerId, query)))
    ensures !Truthy(countOnly) && Truthy(idsOnly) ==> r == Ok(IdsOutput(p.idsForQuery(serviceId, layerId, query)))
    ensures !Truthy(countOnly) && !Truthy(idsOnly) ==>
      var spec := FeatureSetSpec(featureSetTemplate, p.fields(serviceId, layerId),
                                 p.featuresForQuery(serviceId, layerId, query), outSR, pr);
      r.Ok? == spec.Ok? && (r.Ok? ==> r.value == FeatureSetOutput(spec.value))
  {
    if Truthy(countOnly) {
      r := Ok(CountOutput(p.countForQuery(serviceId, layerId, query)));
    } else if Truthy(idsOnly) {
      r := Ok(IdsOutput(p.idsForQuery(serviceId, layerId, query)));
    } else {
      var queryResult := p.featuresForQuery(serviceId, layerId, query);
      var featureSet := FeatureSetFor(featureSetTemplate, p.fields(serviceId, layerId), queryResult, outSR, pr);
      if featureSet.Err? {
        return Err(TypeError);
      }
      r := Ok(FeatureSetOutput(featureSet.value));
    }
  }

  /** Web Mercator output keeps the provider's order one to one: the i-th
      output feature is the i-th input feature with only its geometry
      replaced by the projection of that geometry. `fields` is the provider's
      and every other template property is kept. */
  lemma MercatorFeaturesOrderPreserved(
    template: Json, fields: Json, features: seq<Json>, outSR: Json, pr: Projector)
    requires IsWebMercator(outSR)
    requires FeatureSetSpec(template, fields, features, outSR, pr).Ok?
    ensures var fs := FeatureSetSpec(template, fields, features, outSR, pr).value;
      fs.Obj? && fs.props.Keys == template.props.Keys + {"fields", "features", "spatialReference"}
      && fs.props["fields"] == fields
      && (forall k :: k in template.props && k !in {"fields", "features", "spatialReference"} ==>
            fs.props[k] == template.props[k])
      && fs.props["features"].Arr? && |fs.props["features"].items| == |features|
      && forall i :: 0 <= i < |features| ==>
           var out := fs.props["features"].items[i];
           out.Obj? && out.props.Keys == features[i].props.Keys
           && (forall k :: k in features[i].props && k != "geometry" ==> out.props[k] == features[i].props[k])
           && Ok(out.props["geometry"]) == ProjectGeometry(Some(features[i].props["geometry"]), pr)
  {
  }

  /** Web Mercator output: every output geometry is a point tagged 102100,
      and so is the FeatureSet when its template's spatial reference is an
      object. */
  lemma MercatorOutputTagged(
    template: Json, fields: Json, features: seq<Json>, outSR: Json, pr: Projector)
    requires IsWebMercator(outSR)
    requires FeatureSetSpec(template, fields, features, outSR, pr).Ok?
    ensures var fs := FeatureSetSpec(template, fields, features, outSR, pr).value;
      fs.Obj? && "features" in fs.props && fs.props["features"].Arr?
      && (forall i :: 0 <= i < |fs.props["features"].items| ==>
            var out := fs.props["features"].items[i];
            out.Obj? && "geometry" in out.props
            && WkidOf(out.props["geometry"]) == Some(Num(WebMercatorWkid as real)))
      && (template.props["spatialReference"].Obj? ==> WkidOf(fs) == Some(Num(WebMercatorWkid as real)))
  {
  }

  /** Without Web Mercator output the provider's list is the output list as
      it is, `fields` is the provider's, and the spatial reference (like
      every other template property) keeps the template's value. */
  lemma FeaturesPassThrough(template: Json, fields: Json, features: seq<Json>, outSR: Json, pr: Projector)
    requires !IsWebMercator(outSR) && template.Obj?
    ensures var fs := FeatureSetSpec(template, fields, features, outSR, pr);
      fs.Ok? && fs.value.Obj?
      && fs.value.props["features"] == Arr(features)
      && fs.value.props["fields"] == fields
      && forall k :: k in template.props && k != "fields" && k != "features" ==> fs.value.props[k] == template.props[k]
  {
  }
}
