/**
 * The records the field app keeps and sends (types.ts). Numbers the source
 * types as `number` are integers here; a location's latitude and longitude
 * are kept as the text they print as.
 */
module Types {
  import opened Wrappers

  datatype Status = Sent | Pending | Error {
    function Text(): string {
      match this
      case Sent => "sent"
      case Pending => "pending"
      case Error => "error"
    }
  }

  datatype Location = Location(lat: string, lng: string)

  /** A problem report, `reportType: 'problem'`. */
  datatype Report = Report(
    id: string, hizmetNo: string, saha: string, kutu: string, sorunTipi: string,
    aciklama: string, photo: Option<string>, location: Option<Location>,
    ekipKodu: string, timestamp: string, status: Status)

  /** `reportType: 'improvement'` */
  datatype ImprovementReport = ImprovementReport(
    id: string, yerlesimAdi: string, bakimTarihi: string, kabloDurumu: string,
    menholDurumu: string, direkDurumu: string, direkDonanimDurumu: string,
    kutuKabinDurumu: string, takdirPuani: int, photo: Option<string>,
    location: Option<Location>, ekipKodu: string, timestamp: string, status: Status)

  /** `reportType: 'modem_setup'` */
  datatype ModemSetupReport = ModemSetupReport(
    id: string, hizmetNo: string, modemTipi: string, aciklama: string,
    ekipKodu: string, timestamp: string, status: Status)

  /** `reportType: 'damage_report'` */
  datatype DamageReport = DamageReport(
    id: string, projeId: string, hasarYapanAdSoyad: string, tcKimlik: string,
    vergiNo: string, telNo: string, cepTel: string, hasarYapanAdres: string,
    hasarTarihi: string, hasarSaati: string, hasarYeri: string, hasarOlusSekli: string,
    tesisCinsiMiktari: string, etkilenenAboneSayisi: string, duzenleyenPersonel: string,
    duzenleyenUnvan: string, tanikBilgileri: string, guvenlikGorevlisi: string,
    ihbarEden: string, kullanilanMalzemeler: string, photo: Option<string>,
    location: Option<Location>, ekipKodu: string, timestamp: string, status: Status)

  /** The two kinds of completed job, `'ARIZA' | 'TESİS'`. */
  datatype JobType = Ariza | Tesis {
    function Text(): string {
      match this
      case Ariza => "ARIZA"
      case Tesis => "TESİS"
    }
  }

  /** `reportType: 'job_completion'` */
  datatype JobCompletionReport = JobCompletionReport(
    id: string, hizmetNo: string, isTipi: JobType, isAdedi: int,
    ekipKodu: string, timestamp: string, status: Status)

  /** `reportType: 'vehicle_log'` */
  datatype VehicleLog = VehicleLog(
    id: string, plaka: string, kilometre: int, ekipKodu: string,
    timestamp: string, status: Status)

  /** `reportType: 'port_change'` */
  datatype PortChangeReport = PortChangeReport(
    id: string, hizmetNo: string, yeniPort: string, yeniDevre: string,
    aciklama: string, ekipKodu: string, timestamp: string, status: Status)

  /** `InventoryAction` */
  datatype InventoryAction = Receive | Install | Return {
    function Text(): string {
      match this
      case Receive => "receive"
      case Install => "install"
      case Return => "return"
    }
  }

  /** `reportType: 'inventory'` */
  datatype InventoryLog = InventoryLog(
    id: string, actionType: InventoryAction, hizmetNo: Option<string>,
    serialNumber: string, deviceType: Option<string>, ekipKodu: string,
    timestamp: string, status: Status)
}
