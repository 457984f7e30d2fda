/** The structured metadata payloads: server info, service catalogue,
    feature-service description and layer description. Each copies its
    template with `_clone`, overwrites a few named properties with provider
    data and, for the list resources, adds one provider descriptor per
    identifier in the provider's order. Templates are immutable values, so no
    call can change the shared template. */
module Metadata {
  import opened JsValue
  import opened DataProvider

  /** `infoJSON`: `currentVersion` is the provider's version and
      `fullVersion` its text form (`toString`, left abstract as `toText`);
      calling `toString` on a null version throws. */
  function InfoJSON(p: Provider, template: Json, toText: Json -> string): (r: Result<Json>)
    ensures r.Ok? <==> Truthy(template) && p.serverVersion != Null
    ensures r.Ok? && template.Obj? ==>
      r.value == Obj(template.props + map["currentVersion" := p.serverVersion,
                                          "fullVersion" := Str(toText(p.serverVersion))])
    ensures r.Ok? && !template.Obj? ==> r.value == template
  {
    var info := Clone(template);
    var info :- SetProp(info, "currentVersion", p.serverVersion);
    if p.serverVersion == Null then Err(TypeError)
    else
      var m := if template.Obj? then template.props else map[];
      UpdateIsMerge(m, "currentVersion", p.serverVersion);
      MergeUpdate(m, map["currentVersion" := p.serverVersion], "fullVersion", Str(toText(p.serverVersion)));
      SetProp(info, "fullVersion", Str(toText(p.serverVersion)))
  }

  /** The template holds an array under `key`. */
  predicate HasArray(template: Json, key: string) {
    template.Obj? && key in template.props && template.props[key].Arr?
  }

  /** `servicesJSON`: sets `currentVersion`, then pushes the descriptor of
      each service id onto the template's own `services` array. The array is
      only touched when there is a service id, so a template without one
      fails exactly when the provider lists services. */
  method ServicesJSON(p: Provider, template: Json) returns (r: Result<Json>)
    ensures r.Ok? <==> Truthy(template) && (p.serviceIds == [] || HasArray(template, "services"))
    ensures r.Ok? && template.Obj? && p.serviceIds == [] ==>
      r.value == Obj(template.props["currentVersion" := p.serverVersion])
    ensures r.Ok? && p.serviceIds != [] ==>
      r.value == Obj(template.props + map[
        "currentVersion" := p.serverVersion,
        "services" := Arr(template.props["services"].items + DetailsFor(p.serviceIds, p.serviceDetails))])
    ensures r.Ok? && !template.Obj? ==> r.value == template
  {
    var services := Clone(template);
    var written := SetProp(services, "currentVersion", p.serverVersion);
    if written.Err? {
      return Err(TypeError);
    }
    services := written.value;
    var serviceIds := p.serviceIds;
    var i := 0;
    while i < |serviceIds|
      invariant 0 <= i <= |serviceIds|
      invariant i == 0 ==> services == written.value
      invariant i > 0 ==> HasArray(template, "services")
      invariant i > 0 ==> services == Obj(template.props + map[
          "currentVersion" := p.serverVersion,
          "services" := Arr(template.props["services"].items + DetailsFor(serviceIds[..i], p.serviceDetails))])
    {
      var list := GetProp(services, "services");
      if list.Err? || list.value.None? || !list.value.value.Arr? {
        return Err(TypeError);
      }
      var items := list.value.value.items + [p.serviceDetails(serviceIds[i])];
      assert DetailsFor(serviceIds[..i + 1], p.serviceDetails)
          == DetailsFor(serviceIds[..i], p.serviceDetails) + [p.serviceDetails(serviceIds[i])];
      ghost var base := template.props["services"].items;
      if i == 0 {
        assert items == base + DetailsFor(serviceIds[..i + 1], p.serviceDetails);
        UpdateIsMerge(template.props, "currentVersion", p.serverVersion);
        MergeUpdate(template.props, map["currentVersion" := p.serverVersion], "services", Arr(items));
      } else {
        assert items == base + DetailsFor(serviceIds[..i + 1], p.serviceDetails);
        MergeUpdate(template.props, map["currentVersion" := p.serverVersion, "services" := list.value.value],
                    "services", Arr(items));
      }
      services := Obj(services.props["services" := Arr(items)]);
      i := i + 1;
    }
    assert serviceIds[..i] == serviceIds;
    r := Ok(services);
  }

  /** `featureServiceJSON`: sets `currentVersion` and replaces `layers` with
      a fresh list holding the descriptor of each of the service's layer ids,
      in order. */
  method FeatureServiceJSON(p: Provider, template: Json, serviceId: Json) returns (r: Result<Json>)
    ensures r.Ok? <==> Truthy(template)
    ensures r.Ok? && template.Obj? ==>
      r.value == Obj(template.props + map[
        "currentVersion" := p.serverVersion,
        "layers" := Arr(DetailsFor(p.layerIds(serviceId), id => p.layerDetails(serviceId, id)))])
    ensures r.Ok? && !template.Obj? ==> r.value == template
  {
    var service := Clone(template);
    var written := SetProp(service, "currentVersion", p.serverVersion);
    if written.Err? {
      return Err(TypeError);
    }
    var layerIds := p.layerIds(serviceId);
    var ls := [];
    var i := 0;
    while i < |layerIds|
      invariant 0 <= i <= |layerIds|
      invariant |ls| == i
      invariant forall j :: 0 <= j < i ==> ls[j] == p.layerDetails(serviceId, layerIds[j])
    {
      ls := ls + [p.layerDetails(serviceId, layerIds[i])];
      i := i + 1;
    }
    assert ls == DetailsFor(layerIds, id => p.layerDetails(serviceId, id));
    r := SetProp(written.value, "layers", Arr(ls));
  }

  /** `featureServiceLayerJSON`: overwrites exactly `currentVersion`, `name`
      (the service id), `layerId`, `displayField`, `objectIdField` and
      `fields` with provider data. */
  function FeatureServiceLayerJSON(p: Provider, template: Json, serviceId: Json, layerId: Json): (r: Result<Json>)
    ensures r.Ok? <==> Truthy(template)
    ensures r.Ok? && template.Obj? ==>
      r.value == Obj(template.props + map[
        "currentVersion" := p.serverVersion,
        "name" := serviceId,
        "layerId" := layerId,
        "displayField" := p.nameField(serviceId, layerId),
        "objectIdField" := p.idField(serviceId, layerId),
        "fields" := p.fields(serviceId, layerId)])
    ensures r.Ok? && !template.Obj? ==> r.value == template
  {
    var m := if template.Obj? then template.props else map[];
    var v, nf, idf := p.serverVersion, p.nameField(serviceId, layerId), p.idField(serviceId, layerId);
    UpdateIsMerge(m, "currentVersion", v);
    MergeUpdate(m, map["currentVersion" := v], "name", serviceId);
    MergeUpdate(m, map["currentVersion" := v, "name" := serviceId], "layerId", layerId);
    MergeUpdate(m, map["currentVersion" := v, "name" := serviceId, "layerId" := layerId], "displayField", nf);
    MergeUpdate(m, map["currentVersion" := v, "name" := serviceId, "layerId" := layerId, "displayField" := nf],
                "objectIdField", idf);
    MergeUpdate(m, map["currentVersion" := v, "name" := serviceId, "layerId" := layerId, "displayField" := nf,
                       "objectIdField" := idf], "fields", p.fields(serviceId, layerId));
    var layer := Clone(template);
    // Once the first write succeeds the copy is not null, so the later
    // writes cannot throw.
    var layer :- SetProp(layer, "currentVersion", v);
    var layer := SetProp(layer, "name", serviceId).value;
    var layer := SetProp(layer, "layerId", layerId).value;
    var layer := SetProp(layer, "displayField", nf).value;
    var layer := SetProp(layer, "objectIdField", idf).value;
    SetProp(layer, "fields", p.fields(serviceId, layerId))
  }
}
